/**
 * Keyword analysis (`/api/osint/keywords`): every keyword (or the six default
 * ones when none is given) is counted, case-insensitively, in the page's
 * visible text; the keywords that occur are listed in request order, their
 * counts are kept per keyword, and the relevance is 15 per listed keyword plus
 * the counts, capped at 100.
 */
module Keywords {
  import opened Text
  import opened Lists
  import opened Urls
  import opened Web
  import opened Scoring

  const DefaultKeywords: seq<string> := ["automation", "AI", "CRM", "analytics", "enterprise", "SaaS"]

  /** `keyword_details`: each found keyword with its count (the density is not modelled). */
  type Details = seq<(string, nat)>

  datatype KeywordReport = KeywordReport(
    url: string, found: seq<string>, details: Details, relevance: int, totalWords: nat)

  /** `text.count(keyword.lower())`. */
  function Hits(text: string, keyword: string): nat {
    Occurrences(text, Lower(keyword))
  }

  /** `matches`: the keywords that occur, in request order (a repeated keyword is listed again). */
  function Matched(text: string, keywords: seq<string>): seq<string> {
    Filter(keywords, (k: string) => Hits(text, k) > 0)
  }

  /** `keyword_scores` after the loop. */
  function DetailsOf(text: string, keywords: seq<string>): Details {
    if keywords == [] then []
    else
      var d := DetailsOf(text, keywords[..|keywords| - 1]);
      var k := keywords[|keywords| - 1];
      if Hits(text, k) > 0 then Put(d, k, Hits(text, k)) else d
  }

  function SumCounts(d: Details): nat {
    if d == [] then 0 else SumCounts(d[..|d| - 1]) + d[|d| - 1].1
  }

  function Relevance(found: seq<string>, details: Details): int {
    Min(100, |found| * 15 + SumCounts(details))
  }

  /** `len(text.split())`: the number of maximal runs of non-space characters. */
  function WordCount(s: string): nat {
    if s == [] then 0
    else
      var n := |s|;
      WordCount(s[..n - 1]) + if !IsSpace(s[n - 1]) && (n == 1 || IsSpace(s[n - 2])) then 1 else 0
  }

  function KeywordReportOf(env: Env, url: string, keywords: seq<string>, body: string): KeywordReport {
    var asked := if keywords == [] then DefaultKeywords else keywords;
    var text := Lower(env.html(body).visibleText);
    var found := Matched(text, asked);
    var details := DetailsOf(text, asked);
    KeywordReport(url, found, details, Relevance(found, details), WordCount(text))
  }

  function KeywordRequest(url: string): Request {
    Request(GET, NormalizeUrl(Strip(url)), 15)
  }

  /** The counting loop over the keywords. */
  method Scan(text: string, keywords: seq<string>) returns (found: seq<string>, details: Details)
    ensures found == Matched(text, keywords)
    ensures details == DetailsOf(text, keywords)
  {
    found, details := [], [];
    var i := 0;
    while i < |keywords|
      invariant 0 <= i <= |keywords|
      invariant found == Matched(text, keywords[..i])
      invariant details == DetailsOf(text, keywords[..i])
    {
      var k := keywords[i];
      var count := Occurrences(text, Lower(k));
      ghost var seen, next := keywords[..i], keywords[..i + 1];
      assert next[..i] == seen && next[i] == k;
      assert DetailsOf(text, next) == if count > 0 then Put(details, k, count) else details;
      assert next == seen + [k];
      FilterSnoc(seen, [k], (w: string) => Hits(text, w) > 0);
      if count > 0 {
        details := Put(details, k, count);
        found := found + [k];
      }
      i := i + 1;
    }
    assert keywords[..i] == keywords;
  }

  /**
   * The handler: a blank `url` is a 400; a request that raises is a 500;
   * any response, whatever its status, is analysed.
   */
  method KeywordAnalysis(env: Env, url: string, keywords: seq<string>) returns (out: Outcome<KeywordReport>)
    ensures Strip(url) == [] ==> out == BadRequest("URL is required")
    ensures Strip(url) != [] && !Fetched(env.net(KeywordRequest(url))) ==> out == ServerError("Keyword analysis failed")
    ensures Strip(url) != [] && Fetched(env.net(KeywordRequest(url))) ==>
      out == Ok(KeywordReportOf(env, NormalizeUrl(Strip(url)), keywords, env.net(KeywordRequest(url)).body))
  {
    var target := Strip(url);
    if target == [] {
      return BadRequest("URL is required");
    }
    var asked := keywords;
    if asked == [] {
      asked := DefaultKeywords;
    }
    target := NormalizeUrl(target);
    var response := env.net(Request(GET, target, 15));
    if !Fetched(response) {
      return ServerError("Keyword analysis failed");
    }
    var text := Lower(env.html(response.body).visibleText);
    var found, details := Scan(text, asked);
    out := Ok(KeywordReport(target, found, details, Relevance(found, details), WordCount(text)));
  }

  /** A keyword is listed exactly when its lower-cased form occurs in the text; the list keeps request order. */
  lemma MatchedIff(text: string, keywords: seq<string>, k: string)
    ensures k in Matched(text, keywords) <==> k in keywords && Contains(text, Lower(k))
    ensures Subsequence(Matched(text, keywords), keywords)
  {
    FilterIff(keywords, (k: string) => Hits(text, k) > 0, k);
    OccurrencesPositive(text, Lower(k));
    FilterOrder(keywords, (k: string) => Hits(text, k) > 0);
  }

  /**
   * The details hold one entry per distinct listed keyword, each with that
   * keyword's (positive) count in the text.
   */
  lemma DetailsSpec(text: string, keywords: seq<string>)
    ensures NoDup(Keys(DetailsOf(text, keywords), KeyOf))
    ensures forall e :: e in DetailsOf(text, keywords) ==> e.1 == Hits(text, e.0) > 0
    ensures forall x :: x in Keys(DetailsOf(text, keywords), KeyOf) <==> x in keywords && Hits(text, x) > 0
  {
    DetailsDistinct(text, keywords);
    DetailsCounts(text, keywords);
    DetailsKeys(text, keywords);
  }

  lemma {:induction false} DetailsDistinct(text: string, keywords: seq<string>)
    ensures NoDup(Keys(DetailsOf(text, keywords), KeyOf))
  {
    if keywords != [] {
      var p, k := keywords[..|keywords| - 1], keywords[|keywords| - 1];
      DetailsDistinct(text, p);
      PutSpec(DetailsOf(text, p), k, Hits(text, k));
    }
  }

  lemma {:induction false} DetailsCounts(text: string, keywords: seq<string>)
    ensures forall e :: e in DetailsOf(text, keywords) ==> e.1 == Hits(text, e.0) > 0
  {
    if keywords != [] {
      var p, k := keywords[..|keywords| - 1], keywords[|keywords| - 1];
      DetailsDistinct(text, p);
      DetailsCounts(text, p);
      PutSpec(DetailsOf(text, p), k, Hits(text, k));
    }
  }

  lemma {:induction false} DetailsKeys(text: string, keywords: seq<string>)
    ensures forall x :: x in Keys(DetailsOf(text, keywords), KeyOf) <==> x in keywords && Hits(text, x) > 0
  {
    if keywords != [] {
      var p, k := keywords[..|keywords| - 1], keywords[|keywords| - 1];
      assert keywords == p + [k];
      DetailsKeys(text, p);
      var d := DetailsOf(text, p);
      if Hits(text, k) > 0 {
        assert DetailsOf(text, keywords) == Put(d, k, Hits(text, k));
        PutSpec(d, k, Hits(text, k));
      } else {
        assert DetailsOf(text, keywords) == d;
      }
    }
  }

  /** The relevance lies in [0, 100] and is 0 exactly when no keyword occurs. */
  lemma RelevanceBounds(text: string, keywords: seq<string>)
    ensures 0 <= Relevance(Matched(text, keywords), DetailsOf(text, keywords)) <= 100
    ensures Relevance(Matched(text, keywords), DetailsOf(text, keywords)) == 0 <==> Matched(text, keywords) == []
  {
    var found := Matched(text, keywords);
    if found == [] {
      var p := (k: string) => Hits(text, k) > 0;
      assert forall k :: k in keywords ==> !p(k) by {
        forall k | k in keywords ensures !p(k) {
          FilterIff(keywords, p, k);
        }
      }
      DetailsEmpty(text, keywords);
    }
  }

  /** No keyword occurs, so no entry is recorded. */
  lemma {:induction false} DetailsEmpty(text: string, keywords: seq<string>)
    requires forall k :: k in keywords ==> Hits(text, k) == 0
    ensures DetailsOf(text, keywords) == []
  {
    if keywords != [] {
      DetailsEmpty(text, keywords[..|keywords| - 1]);
    }
  }

  /** The text has no word exactly when it is all whitespace. */
  lemma {:induction false} WordCountZero(s: string)
    ensures WordCount(s) == 0 <==> forall i :: 0 <= i < |s| ==> IsSpace(s[i])
  {
    if s != [] {
      var n := |s|;
      WordCountZero(s[..n - 1]);
      if !IsSpace(s[n - 1]) && n > 1 && !IsSpace(s[n - 2]) {
        WordCountLast(s[..n - 1]);
      }
    }
  }

  /** A text ending in a non-space character has at least one word. */
  lemma {:induction false} WordCountLast(s: string)
    requires s != [] && !IsSpace(s[|s| - 1])
    ensures WordCount(s) > 0
  {
    var n := |s|;
    if n > 1 && !IsSpace(s[n - 2]) {
      WordCountLast(s[..n - 1]);
    }
  }
}
