// The blog collector: HTML cleaning, the advertisement filter, the quality score and the
// per-stock item filter.
module Blog {
  import opened Wrappers
  import opened Text

  // ------------------------------------------------------------- HTML cleaning

  /** The length of the `<[^>]+>` match at the start of `s`, if there is one: a '<', at
      least one character other than '>', then the first '>'. */
  function TagLength(s: string): (n: Option<nat>)
    ensures n.Some? ==> 3 <= n.value <= |s| && s[0] == '<' && s[n.value - 1] == '>'
  {
    if |s| == 0 || s[0] != '<' then None
    else match FindChar(s[1..], '>')
      case Some(j) => if j > 0 then Some(j + 2) else None
      case None => None
  }

  /** `re.sub(r"<[^>]+>", "", s)`: matches are removed left to right, and scanning resumes
      after each one. */
  function StripTags(s: string): (r: string)
    ensures |r| <= |s|
    decreases |s|
  {
    if |s| == 0 then []
    else match TagLength(s)
      case Some(n) => StripTags(s[n..])
      case None => [s[0]] + StripTags(s[1..])
  }

  /** No position of `s` starts a tag. */
  predicate NoTags(s: string)
  {
    forall i :: 0 <= i < |s| ==> TagLength(s[i..]).None?
  }

  /** Without any '>' nothing is a tag, so nothing is removed. */
  lemma NoCloseNothingStripped(s: string)
    requires forall k :: 0 <= k < |s| ==> s[k] != '>'
    ensures StripTags(s) == s
  {
    forall i | 0 <= i < |s|
      ensures TagLength(s[i..]).None?
    {
      assert forall j :: 0 <= j < |s[i..]| ==> s[i..][j] == s[i + j];
    }
    NoTagsUnchanged(s);
  }

  /** A string without tags is left as it is. */
  lemma {:induction false} NoTagsUnchanged(s: string)
    requires NoTags(s)
    ensures StripTags(s) == s
  {
    if |s| > 0 {
      assert s[0..] == s;
      assert forall i :: 0 <= i < |s| - 1 ==> s[1..][i..] == s[i + 1..];
      NoTagsUnchanged(s[1..]);
    }
  }

  /** The result holds no tag: removing matches never leaves a new one behind. */
  lemma {:induction false} StripTagsLeavesNoTags(s: string)
    ensures NoTags(StripTags(s))
    decreases |s|
  {
    if |s| > 0 {
      match TagLength(s)
      case Some(n) =>
        StripTagsLeavesNoTags(s[n..]);
      case None =>
        var rest := StripTags(s[1..]);
        var r := [s[0]] + rest;
        StripTagsLeavesNoTags(s[1..]);
        forall i | 0 <= i < |r|
          ensures TagLength(r[i..]).None?
        {
          if i > 0 {
            assert r[i..] == rest[i - 1..];
          } else if s[0] == '<' {
            var f := FindChar(s[1..], '>');
            if f.None? {
              NoCloseNothingStripped(s[1..]);
              assert r == s;
            } else {
              assert s[1] == '>';
              assert s[1..][0] == '>' && TagLength(s[1..]).None?;
              assert rest == [s[1]] + StripTags(s[2..]) by { assert s[1..][1..] == s[2..]; }
              assert r[1..][0] == '>';
            }
          }
        }
    }
  }

  /** Stripping tags twice is stripping them once. */
  lemma StripTagsIdempotent(s: string)
    ensures StripTags(StripTags(s)) == StripTags(s)
  {
    StripTagsLeavesNoTags(s);
    NoTagsUnchanged(StripTags(s));
  }

  /** `_clean_html`: tags removed, then &quot;, &amp;, &lt; and &gt; replaced in that
      order, then surrounding whitespace stripped. */
  function CleanHtml(s: string): (r: string)
    ensures r == [] || (!IsSpace(r[0]) && !IsSpace(r[|r| - 1]))
  {
    var t := StripTags(s);
    var t1 := Replace(t, "&quot;", "\"");
    var t2 := Replace(t1, "&amp;", "&");
    var t3 := Replace(t2, "&lt;", "<");
    var t4 := Replace(t3, "&gt;", ">");
    StripMeaning(t4);
    Strip(t4)
  }

  lemma UnescapeAmp()
    ensures Replace("&amp;lt;", "&amp;", "&") == "&lt;"
  {
    var s := "&amp;lt;";
    assert StartsWith(s, "&amp;");
    assert s[5..] == "lt;";
    ReplaceAbsent("lt;", "&amp;", "&");
  }

  lemma UnescapeLt()
    ensures Replace("&lt;", "&lt;", "<") == "<"
  {
    assert StartsWith("&lt;", "&lt;");
    assert "&lt;"[4..] == [];
  }

  lemma KeepQuotAndGt()
    ensures Replace("&amp;lt;", "&quot;", "\"") == "&amp;lt;"
    ensures Replace("<", "&gt;", ">") == "<"
  {
    var s := "&amp;lt;";
    assert !StartsWith(s, "&quot;") by { assert s[1] != "&quot;"[1]; }
    ReplaceAbsent(s[1..], "&quot;", "\"");
    ReplaceAbsent("<", "&gt;", ">");
  }

  lemma UnescapeChain()
    ensures Replace(Replace(Replace(Replace(StripTags("&amp;lt;"), "&quot;", "\""), "&amp;", "&"), "&lt;", "<"), "&gt;", ">") == "<"
  {
    NoCloseNothingStripped("&amp;lt;");
    KeepQuotAndGt();
    UnescapeAmp();
    UnescapeLt();
  }

  /** Because &amp; is replaced before &lt;, an escaped entity is unescaped twice. */
  lemma DoubleUnescape()
    ensures CleanHtml("&amp;lt;") == "<"
  {
    UnescapeChain();
    assert LStrip("<") == "<";
  }

  /** Without '<' nothing is a tag. */
  lemma NoOpenNothingStripped(s: string)
    requires forall k :: 0 <= k < |s| ==> s[k] != '<'
    ensures StripTags(s) == s
  {
    forall i | 0 <= i < |s|
      ensures TagLength(s[i..]).None?
    {
      assert s[i..][0] == s[i];
    }
    NoTagsUnchanged(s);
  }

  /** Text with no '<' and no '&' is only stripped of surrounding whitespace. */
  lemma PlainTextOnlyStripped(s: string)
    requires forall k :: 0 <= k < |s| ==> s[k] != '<' && s[k] != '&'
    ensures CleanHtml(s) == Strip(s)
  {
    NoOpenNothingStripped(s);
    ReplaceAbsent(s, "&quot;", "\"");
    ReplaceAbsent(s, "&amp;", "&");
    ReplaceAbsent(s, "&lt;", "<");
    ReplaceAbsent(s, "&gt;", ">");
  }

  // ------------------------------------------------------- advertisement filter

  const AdKeywords: seq<string> := [
    "무료", "추천주", "급등주", "대박주", "수익인증",
    "카톡", "텔레그램", "단톡방", "유료방", "구독",
    "리딩", "종목추천", "무료체험", "상담", "문의"
  ]

  /** `_is_ad`: some advertisement keyword occurs in the lower-cased title and description. */
  predicate IsAd(title: string, description: string): (ad: bool)
    ensures ad <==> exists i :: 0 <= i < |AdKeywords| && Contains(title + " " + description, AdKeywords[i])
  {
    AdKeywordsCaseless(title + " " + description);
    AnyContained(Lower(title + " " + description), AdKeywords)
  }

  predicate NoAsciiUpper(k: string)
  {
    forall j :: 0 <= j < |k| ==> !('A' <= k[j] <= 'Z') && !('a' <= k[j] <= 'z')
  }

  /** Lower-casing cannot create or destroy a keyword without ASCII letters. */
  lemma {:induction false} LowerKeepsCaselessKeyword(t: string, k: string)
    requires NoAsciiUpper(k)
    ensures Contains(Lower(t), k) <==> Contains(t, k)
  {
    var lt := Lower(t);
    if Contains(t, k) {
      var i :| 0 <= i <= |t| && StartsWith(t[i..], k);
      forall j | 0 <= j < |k| ensures lt[i + j] == k[j] {
        assert t[i..][j] == t[i + j] == k[j];
      }
      assert lt[i..i + |k|] == k;
      ContainsAt(lt, k, i);
    }
    if Contains(lt, k) {
      var i :| 0 <= i <= |lt| && StartsWith(lt[i..], k);
      forall j | 0 <= j < |k| ensures t[i + j] == k[j] {
        assert lt[i..][j] == lt[i + j] == k[j] == LowerChar(t[i + j]);
      }
      assert t[i..i + |k|] == k;
      ContainsAt(t, k, i);
    }
  }

  /** The filter flags a post exactly when some keyword occurs in its title, a space and its
      description, whatever the case of its letters. */
  lemma AdKeywordsCaseless(t: string)
    ensures AnyContained(Lower(t), AdKeywords) <==> exists i :: 0 <= i < |AdKeywords| && Contains(t, AdKeywords[i])
  {
    AnyContainedIff(Lower(t), AdKeywords);
    forall i | 0 <= i < |AdKeywords| ensures Contains(Lower(t), AdKeywords[i]) <==> Contains(t, AdKeywords[i]) {
      assert NoAsciiUpper(AdKeywords[i]);
      LowerKeepsCaselessKeyword(t, AdKeywords[i]);
    }
  }

  // ------------------------------------------------------------- quality score

  const ProfessionalKeywords: seq<string> := [
    "실적", "재무제표", "PER", "PBR", "ROE",
    "영업이익", "순이익", "매출", "자산",
    "부채비율", "밸류에이션", "목표주가"
  ]

  /** How many of `keys` occur in the title or the description. */
  function KeywordHits(title: string, description: string, keys: seq<string>): (n: nat)
    ensures n <= |keys|
  {
    if |keys| == 0 then 0
    else
      KeywordHits(title, description, keys[..|keys| - 1])
      + (if Contains(title, keys[|keys| - 1]) || Contains(description, keys[|keys| - 1]) then 1 else 0)
  }

  function LengthBonus(length: nat): real
  {
    (if length > 500 then 0.1 else 0.0) + (if length > 1000 then 0.1 else 0.0)
  }

  /** The capped score: 0.5, length bonuses, 0.05 per professional keyword, at most 1.0. */
  function Quality(title: string, description: string): (q: real)
    ensures 0.5 <= q <= 1.0
  {
    var raw := 0.5 + LengthBonus(|description|) + 0.05 * KeywordHits(title, description, ProfessionalKeywords) as real;
    if raw < 1.0 then raw else 1.0
  }

  /** `_calculate_quality`. */
  method CalculateQuality(title: string, description: string) returns (score: real)
    ensures score == Quality(title, description)
    ensures 0.5 <= score <= 1.0
  {
    score := 0.5;
    var length := |description|;
    if length > 500 {
      score := score + 0.1;
    }
    if length > 1000 {
      score := score + 0.1;
    }
    var i := 0;
    while i < |ProfessionalKeywords|
      invariant 0 <= i <= |ProfessionalKeywords|
      invariant score == 0.5 + LengthBonus(length) + 0.05 * KeywordHits(title, description, ProfessionalKeywords[..i]) as real
    {
      var kw := ProfessionalKeywords[i];
      assert ProfessionalKeywords[..i + 1][..i] == ProfessionalKeywords[..i];
      if Contains(title, kw) || Contains(description, kw) {
        score := score + 0.05;
      }
      i := i + 1;
    }
    assert ProfessionalKeywords[..i] == ProfessionalKeywords;
    if score > 1.0 {
      score := 1.0;
    }
  }

  /** A long post hitting six keywords scores the full 1.0; a short one hitting none scores
      the base 0.5. */
  lemma QualityFromHits(title: string, description: string)
    ensures |description| > 1000 && KeywordHits(title, description, ProfessionalKeywords) >= 6 ==>
              Quality(title, description) == 1.0
    ensures |description| <= 500 && KeywordHits(title, description, ProfessionalKeywords) == 0 ==>
              Quality(title, description) == 0.5
  {
  }

  /** A description at least as long with at least as many keyword hits never scores lower. */
  lemma QualityMonotone(title: string, description: string, title': string, description': string)
    requires |description| <= |description'|
    requires KeywordHits(title, description, ProfessionalKeywords) <= KeywordHits(title', description', ProfessionalKeywords)
    ensures Quality(title, description) <= Quality(title', description')
  {
  }

  // ------------------------------------------------------------- item filter

  /** One search result; `postDay` is its `postdate` as a day number, None when the field is
      empty or missing. */
  datatype Item = Item(title: string, description: string, link: string, bloggerName: string, postDay: Option<int>)

  datatype Post = Post(stockId: int, url: string, bloggerName: string, postDay: int,
                       title: string, description: string, wordCount: nat, quality: real)

  /** Posts stored so far for the stock, and the URLs already stored for it. */
  datatype Progress = Progress(posts: seq<Post>, urls: set<string>)

  /** What one result does: cleaned, then skipped without a date, when older than the cutoff,
      when an advertisement, when shorter than `minLength` or when its URL is stored. */
  function Visit(stockId: int, cutoff: int, minLength: int, st: Progress, item: Item): Progress
  {
    var title := CleanHtml(item.title);
    var description := CleanHtml(item.description);
    if item.postDay.None? || item.postDay.value < cutoff || IsAd(title, description)
       || |description| < minLength || item.link in st.urls
    then st
    else Progress(st.posts + [Post(stockId, item.link, item.bloggerName, item.postDay.value, title, description,
                                   |description|, Quality(title, description))],
                  st.urls + {item.link})
  }

  function VisitAll(stockId: int, cutoff: int, minLength: int, st: Progress, items: seq<Item>): Progress
  {
    if |items| == 0 then st
    else Visit(stockId, cutoff, minLength, VisitAll(stockId, cutoff, minLength, st, items[..|items| - 1]), items[|items| - 1])
  }

  /** The body of the item loop: the post to store for one search result, if any. */
  method Admit(stockId: int, cutoff: int, minLength: int, st: Progress, item: Item) returns (post: Option<Post>)
    ensures Visit(stockId, cutoff, minLength, st, item)
            == if post.Some? then Progress(st.posts + [post.value], st.urls + {item.link}) else st
  {
    var title := CleanHtml(item.title);
    var description := CleanHtml(item.description);
    if item.postDay.None? || item.postDay.value < cutoff {
      return None;
    }
    if IsAd(title, description) || |description| < minLength || item.link in st.urls {
      return None;
    }
    var quality := CalculateQuality(title, description);
    post := Some(Post(stockId, item.link, item.bloggerName, item.postDay.value, title, description,
                      |description|, quality));
  }

  /** The item loop of `_collect_stock_blogs`. */
  method FilterItems(stockId: int, cutoff: int, minLength: int, stored: set<string>, items: seq<Item>)
    returns (posts: seq<Post>, count: nat)
    ensures posts == VisitAll(stockId, cutoff, minLength, Progress([], stored), items).posts
    ensures count == |posts|
  {
    posts := [];
    count := 0;
    var urls := stored;
    var i := 0;
    while i < |items|
      invariant 0 <= i <= |items|
      invariant Progress(posts, urls) == VisitAll(stockId, cutoff, minLength, Progress([], stored), items[..i])
      invariant count == |posts|
    {
      VisitAllSnoc(stockId, cutoff, minLength, Progress([], stored), items, i);
      var post := Admit(stockId, cutoff, minLength, Progress(posts, urls), items[i]);
      if post.Some? {
        posts := posts + [post.value];
        urls := urls + {items[i].link};
        count := count + 1;
      }
      i := i + 1;
    }
    assert items[..i] == items;
  }

  /** One more result is one more visit. */
  lemma VisitAllSnoc(stockId: int, cutoff: int, minLength: int, st: Progress, items: seq<Item>, i: nat)
    requires i < |items|
    ensures VisitAll(stockId, cutoff, minLength, st, items[..i + 1])
            == Visit(stockId, cutoff, minLength, VisitAll(stockId, cutoff, minLength, st, items[..i]), items[i])
  {
    assert items[..i + 1][..i] == items[..i];
  }

  /** `_collect_stock_blogs` after the search: `response` is None when the status is not 200.
      `today` is the current day number and `stored` the URLs already stored for the stock. */
  method CollectStockBlogs(stockId: int, today: int, lookbackDays: int, minLength: int,
                           stored: set<string>, response: Option<seq<Item>>)
    returns (posts: seq<Post>, count: nat)
    ensures response.None? ==> posts == [] && count == 0
    ensures response.Some? ==>
              posts == VisitAll(stockId, today - lookbackDays, minLength, Progress([], stored), response.value).posts
    ensures count == |posts|
  {
    if response.None? {
      return [], 0;
    }
    posts, count := FilterItems(stockId, today - lookbackDays, minLength, stored, response.value);
  }

  /** The filters a stored post has passed. */
  predicate PassesFilters(p: Post, cutoff: int, minLength: int)
  {
    p.postDay >= cutoff && !IsAd(p.title, p.description) && p.wordCount == |p.description|
    && p.wordCount >= minLength && 0.5 <= p.quality <= 1.0
  }

  /** One result either changes nothing or appends one post that passed the filters, under
      a URL not stored before, and records that URL. */
  lemma VisitStep(stockId: int, cutoff: int, minLength: int, st: Progress, item: Item)
    ensures var r := Visit(stockId, cutoff, minLength, st, item);
            r == st
            || (|r.posts| == |st.posts| + 1 && r.posts[..|st.posts|] == st.posts
                && r.urls == st.urls + {item.link} && item.link !in st.urls
                && r.posts[|st.posts|].url == item.link && PassesFilters(r.posts[|st.posts|], cutoff, minLength))
  {
    var r := Visit(stockId, cutoff, minLength, st, item);
    if r != st {
      assert r.posts[..|st.posts|] == st.posts;
    }
  }

  /** Every stored post passed each filter, and no two stored posts share a URL, nor does a
      stored post reuse a URL stored before. */
  lemma {:induction false} StoredPostsPassFilters(stockId: int, cutoff: int, minLength: int, st: Progress, items: seq<Item>)
    requires forall k :: 0 <= k < |st.posts| ==> st.posts[k].url in st.urls
    ensures var r := VisitAll(stockId, cutoff, minLength, st, items);
            |st.posts| <= |r.posts| && r.posts[..|st.posts|] == st.posts && st.urls <= r.urls
            && (forall k :: 0 <= k < |r.posts| ==> r.posts[k].url in r.urls)
            && (forall k :: |st.posts| <= k < |r.posts| ==>
                  PassesFilters(r.posts[k], cutoff, minLength) && r.posts[k].url !in st.urls)
            && (forall k, l :: |st.posts| <= k < l < |r.posts| ==> r.posts[k].url != r.posts[l].url)
  {
    if |items| > 0 {
      var mid := VisitAll(stockId, cutoff, minLength, st, items[..|items| - 1]);
      StoredPostsPassFilters(stockId, cutoff, minLength, st, items[..|items| - 1]);
      var item := items[|items| - 1];
      var r := Visit(stockId, cutoff, minLength, mid, item);
      VisitStep(stockId, cutoff, minLength, mid, item);
      if r != mid {
        forall k | 0 <= k < |mid.posts| ensures r.posts[k] == mid.posts[k] {
          assert r.posts[..|mid.posts|][k] == mid.posts[k];
        }
      }
    }
  }
}
