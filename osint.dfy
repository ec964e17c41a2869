/**
 * Search-based endpoints: Google dorking (`/api/dork/search`), GitHub OSINT
 * (`/api/osint/github`) and feed discovery (`/api/osint/feeds`).
 */
module Osint {
  import opened Options
  import opened Text
  import opened Lists
  import opened Urls
  import opened Web

  // ------------------------------------------------------------------ dorking

  const MaxResults := 15

  datatype SearchResult = SearchResult(title: string, url: string, snippet: string)

  /**
   * The JSON body of a 200 answer. `blocked` holds the search's status when it
   * was not 200; the results are then empty and nothing was parsed.
   */
  datatype DorkReport = DorkReport(
    query: string, results: seq<SearchResult>, total: nat, googleUrl: string, blocked: Option<int>)

  function UrlOf(r: SearchResult): string {
    r.url
  }

  function SearchUrl(env: Env, query: string): string {
    "https://www.google.com/search?q=" + env.quote(query) + "&num=20&hl=en"
  }

  /** A result block counts when its link points outside Google. */
  predicate KeepBlock(b: Block) {
    b.href.Some? && b.href.value != "" && StartsWith(b.href.value, "http") && !StartsWith(b.href.value, "https://www.google")
  }

  function BlockResult(b: Block): SearchResult
    requires b.href.Some?
  {
    SearchResult(if b.title.Some? then b.title.value else "No title", b.href.value,
                 if b.snippet.Some? then Take(b.snippet.value, 200) else "")
  }

  /** The results read from the result blocks, in page order. */
  function Primary(blocks: seq<Block>): seq<SearchResult> {
    if blocks == [] then []
    else
      var b := blocks[|blocks| - 1];
      Primary(blocks[..|blocks| - 1]) + if KeepBlock(b) then [BlockResult(b)] else []
  }

  /** A fallback link counts when it does not point at Google, its static host or YouTube. */
  predicate KeepLink(l: Link) {
    l.href != "" && !AnyIn(l.href, ["google.", "gstatic.", "youtube."])
  }

  function LinkResult(l: Link): SearchResult {
    SearchResult(Take(l.text, 100), l.href, "")
  }

  /** Every qualifying fallback link, in page order (the scan stops after the fifteenth). */
  function FallbackAll(links: seq<Link>): seq<SearchResult> {
    if links == [] then []
    else
      var l := links[|links| - 1];
      FallbackAll(links[..|links| - 1]) + if KeepLink(l) then [LinkResult(l)] else []
  }

  /** The fallback scan runs only when the result blocks gave nothing. */
  function Collected(page: Page): seq<SearchResult> {
    var primary := Primary(page.resultBlocks);
    if primary != [] then primary else Take(FallbackAll(page.resultLinks), MaxResults)
  }

  function DorkReportOf(env: Env, query: string, page: Page): DorkReport {
    var unique := DedupBy(Collected(page), UrlOf);
    DorkReport(query, Take(unique, MaxResults), |unique|, SearchUrl(env, query), None)
  }

  function DorkRequest(env: Env, query: string): Request {
    Request(GET, SearchUrl(env, Strip(query)), 15)
  }

  /** `for g in soup.select(...)`: keep the blocks whose link points outside Google. */
  method CollectPrimary(blocks: seq<Block>) returns (results: seq<SearchResult>)
    ensures results == Primary(blocks)
  {
    results := [];
    var i := 0;
    while i < |blocks|
      invariant 0 <= i <= |blocks|
      invariant results == Primary(blocks[..i])
    {
      assert blocks[..i + 1][..i] == blocks[..i];
      var b := blocks[i];
      if b.href.Some? && b.href.value != "" {
        var url := b.href.value;
        if StartsWith(url, "http") && !StartsWith(url, "https://www.google") {
          results := results + [BlockResult(b)];
        }
      }
      i := i + 1;
    }
    assert blocks[..i] == blocks;
  }

  /** `for link in soup.select(...)`: collect qualifying links, stopping once fifteen are collected. */
  method CollectFallback(links: seq<Link>) returns (results: seq<SearchResult>)
    ensures results == Take(FallbackAll(links), MaxResults)
  {
    results := [];
    var i := 0;
    while i < |links|
      invariant 0 <= i <= |links|
      invariant results == FallbackAll(links[..i]) && |results| < MaxResults
    {
      assert links[..i + 1][..i] == links[..i];
      var l := links[i];
      if KeepLink(l) {
        results := results + [LinkResult(l)];
        if |results| >= MaxResults {
          FallbackPrefix(links, i + 1);
          assert Take(FallbackAll(links), MaxResults) == results;
          return;
        }
      }
      i := i + 1;
    }
    assert links[..i] == links;
  }

  /** The `seen`-set loop. */
  method UniqueByUrl(results: seq<SearchResult>) returns (unique: seq<SearchResult>)
    ensures unique == DedupBy(results, UrlOf)
  {
    var seen: set<string> := {};
    unique := [];
    var i := 0;
    while i < |results|
      invariant 0 <= i <= |results|
      invariant unique == DedupBy(results[..i], UrlOf)
      invariant seen == KeySet(results[..i], UrlOf)
    {
      assert results[..i + 1][..i] == results[..i];
      KeySetSnoc(results[..i], results[i], UrlOf);
      assert results[..i] + [results[i]] == results[..i + 1];
      if results[i].url !in seen {
        seen := seen + {results[i].url};
        unique := unique + [results[i]];
      }
      i := i + 1;
    }
    assert results[..i] == results;
  }

  /**
   * The handler: a blank query is a 400, a search that raises is a 500, a
   * search answering other than 200 yields no results and is not parsed.
   */
  method GoogleDork(env: Env, query: string) returns (out: Outcome<DorkReport>)
    ensures Strip(query) == [] ==> out == BadRequest("Search query is required")
    ensures Strip(query) != [] && !Fetched(env.net(DorkRequest(env, query))) ==> out == ServerError("Dorking failed")
    ensures Strip(query) != [] && Fetched(env.net(DorkRequest(env, query))) && !IsOk(env.net(DorkRequest(env, query))) ==>
      out == Ok(DorkReport(Strip(query), [], 0, SearchUrl(env, Strip(query)), Some(env.net(DorkRequest(env, query)).status)))
    ensures Strip(query) != [] && IsOk(env.net(DorkRequest(env, query))) ==>
      out == Ok(DorkReportOf(env, Strip(query), env.html(env.net(DorkRequest(env, query)).body)))
  {
    var q := Strip(query);
    if q == [] {
      return BadRequest("Search query is required");
    }
    var searchUrl := SearchUrl(env, q);
    var response := env.net(Request(GET, searchUrl, 15));
    if !Fetched(response) {
      return ServerError("Dorking failed");
    }
    if response.status != 200 {
      return Ok(DorkReport(q, [], 0, searchUrl, Some(response.status)));
    }
    var page := env.html(response.body);
    var results := CollectPrimary(page.resultBlocks);
    if |results| == 0 {
      results := CollectFallback(page.resultLinks);
    }
    var unique := UniqueByUrl(results);
    out := Ok(DorkReport(q, Take(unique, MaxResults), |unique|, searchUrl, None));
  }

  lemma {:induction false} FallbackAppend(a: seq<Link>, b: seq<Link>)
    ensures FallbackAll(a + b) == FallbackAll(a) + FallbackAll(b)
    decreases |b|
  {
    if b == [] {
      assert a + b == a;
    } else {
      var b', l := b[..|b| - 1], b[|b| - 1];
      var ab := a + b;
      assert ab[..|ab| - 1] == a + b' && ab[|ab| - 1] == l;
      FallbackAppend(a, b');
      var tail := if KeepLink(l) then [LinkResult(l)] else [];
      assert FallbackAll(ab) == FallbackAll(a + b') + tail;
      assert FallbackAll(b) == FallbackAll(b') + tail;
    }
  }

  /** Stopping the scan early yields a prefix of the full scan. */
  lemma FallbackPrefix(links: seq<Link>, k: nat)
    requires k <= |links|
    ensures FallbackAll(links[..k]) <= FallbackAll(links)
  {
    var head, rest := links[..k], links[k..];
    assert head + rest == links;
    FallbackAppendPrefix(head, rest);
  }

  /** The results of a list of links start with those of any first part of it. */
  lemma FallbackAppendPrefix(a: seq<Link>, b: seq<Link>)
    ensures FallbackAll(a) <= FallbackAll(a + b)
  {
    FallbackAppend(a, b);
  }

  /**
   * A primary result comes from a block whose link starts with `http` and not
   * with `https://www.google`, and every such block yields one, in page order.
   */
  lemma {:induction false} PrimarySpec(blocks: seq<Block>)
    ensures |Primary(blocks)| <= |blocks|
    ensures forall r :: r in Primary(blocks) ==> StartsWith(r.url, "http") && !StartsWith(r.url, "https://www.google")
    ensures forall i :: 0 <= i < |blocks| && KeepBlock(blocks[i]) ==> BlockResult(blocks[i]) in Primary(blocks)
  {
    if blocks != [] {
      var q := blocks[..|blocks| - 1];
      PrimarySpec(q);
      assert forall i :: 0 <= i < |q| ==> q[i] == blocks[i];
    }
  }

  /** A fallback result avoids Google, its static host and YouTube; at most fifteen are kept; every qualifying link yields one. */
  lemma {:induction false} FallbackSpec(links: seq<Link>)
    ensures forall r :: r in FallbackAll(links) ==> r.url != "" && !AnyIn(r.url, ["google.", "gstatic.", "youtube."])
    ensures forall i :: 0 <= i < |links| && KeepLink(links[i]) ==> LinkResult(links[i]) in FallbackAll(links)
    ensures |Take(FallbackAll(links), MaxResults)| <= MaxResults
  {
    if links != [] {
      var q := links[..|links| - 1];
      FallbackSpec(q);
      assert forall i :: 0 <= i < |q| ==> q[i] == links[i];
    }
  }

  /** The fallback is consulted only when the result blocks gave nothing. */
  lemma CollectedSpec(page: Page)
    ensures Primary(page.resultBlocks) != [] ==> Collected(page) == Primary(page.resultBlocks)
    ensures Primary(page.resultBlocks) == [] ==> Collected(page) == Take(FallbackAll(page.resultLinks), MaxResults)
  {
  }

  /**
   * The returned results: at most fifteen, no URL twice, each URL's first result
   * at the rank of that URL in order of first appearance, no distinct URL dropped before the cut, and `total` counts the
   * distinct URLs.
   */
  lemma DorkResults(env: Env, query: string, page: Page)
    ensures var r := DorkReportOf(env, query, page);
      var unique := DedupBy(Collected(page), UrlOf);
      |r.results| <= MaxResults && r.results == unique[..|r.results|] && r.total == |unique| &&
      NoDup(Keys(unique, UrlOf)) && KeySet(unique, UrlOf) == KeySet(Collected(page), UrlOf) &&
      Subsequence(unique, Collected(page)) &&
      (forall i :: IsFirst(Collected(page), UrlOf, i) ==> Collected(page)[i] in unique) &&
      |unique| == |KeySet(Collected(page), UrlOf)| &&
      (forall j :: 0 <= j < |unique| ==> FirstAt(Collected(page), UrlOf, unique[j], j))
  {
    DedupBySpec(Collected(page), UrlOf);
  }

  // ---------------------------------------------------------------- GitHub

  const RepoInsights: seq<string> := ["Found public repositories mentioning company", "Check repos for tech stack and employees"]

  datatype GitHubReport = GitHubReport(repos: seq<Repo>, users: seq<string>, insights: seq<string>)

  /** The three prepared searches: readme mentions, `@company` in files, `package.json` mentions. */
  function GitHubQueries(company: string): seq<string> {
    [company + " in:readme", "@" + company + " in:file", company + " filename:package.json"]
  }

  function QueryRequest(env: Env, query: string): Request {
    Request(GET, "https://github.com/search?q=" + env.quote(query) + "&type=repositories", 15)
  }

  /** Only the first prepared query is sent. */
  function GitHubRequest(env: Env, company: string): Request {
    QueryRequest(env, GitHubQueries(company)[0])
  }

  /** A repository link: a non-empty href starting with `/` and splitting on `/` into at least three parts. */
  predicate RepoPath(href: string) {
    href != "" && StartsWith(href, "/") && CountChar(href, '/') + 1 >= 3
  }

  /** The repositories among the first five links, in order. */
  function RepoList(links: seq<Link>): seq<Repo> {
    if links == [] then []
    else
      var l := links[|links| - 1];
      RepoList(links[..|links| - 1]) + if RepoPath(l.href) then [RepoOf(l)] else []
  }

  function GitHubReportOf(page: Page): GitHubReport {
    var repos := RepoList(Take(page.repoLinks, 5));
    GitHubReport(repos, [], if repos != [] then RepoInsights else [])
  }

  method CollectRepoLinks(links: seq<Link>) returns (repos: seq<Repo>)
    ensures repos == RepoList(Take(links, 5))
  {
    var shown := Take(links, 5);
    repos := [];
    var i := 0;
    while i < |shown|
      invariant 0 <= i <= |shown|
      invariant repos == RepoList(shown[..i])
    {
      assert shown[..i + 1][..i] == shown[..i];
      var href := shown[i].href;
      if href != "" && StartsWith(href, "/") && CountChar(href, '/') + 1 >= 3 {
        repos := repos + [RepoOf(shown[i])];
      }
      i := i + 1;
    }
    assert shown[..i] == shown;
  }

  /** The handler: a blank company is a 400, a search that raises is a 500; any response is parsed. */
  method GitHubOsint(env: Env, company: string) returns (out: Outcome<GitHubReport>)
    ensures Strip(company) == [] ==> out == BadRequest("Company name/domain is required")
    ensures Strip(company) != [] && !Fetched(env.net(GitHubRequest(env, Strip(company)))) ==> out == ServerError("GitHub OSINT failed")
    ensures Strip(company) != [] && Fetched(env.net(GitHubRequest(env, Strip(company)))) ==>
      out == Ok(GitHubReportOf(env.html(env.net(GitHubRequest(env, Strip(company))).body)))
  {
    var name := Strip(company);
    if name == [] {
      return BadRequest("Company name/domain is required");
    }
    var response := env.net(GitHubRequest(env, name));
    if !Fetched(response) {
      return ServerError("GitHub OSINT failed");
    }
    var repos := CollectRepoLinks(env.html(response.body).repoLinks);
    var insights := [];
    if repos != [] {
      insights := insights + RepoInsights;
      assert insights == RepoInsights;
    }
    out := Ok(GitHubReport(repos, [], insights));
  }

  /**
   * At most five repositories, each a GitHub URL, and the insights are given
   * exactly when one was found; the users list stays empty.
   */
  lemma GitHubReportSpec(page: Page)
    ensures |GitHubReportOf(page).repos| <= 5
    ensures forall r :: r in GitHubReportOf(page).repos ==> StartsWith(r.url, "https://github.com/")
    ensures GitHubReportOf(page).insights != [] <==> GitHubReportOf(page).repos != []
    ensures GitHubReportOf(page).users == []
  {
    RepoListSpec(Take(page.repoLinks, 5));
  }

  lemma {:induction false} RepoListSpec(links: seq<Link>)
    ensures |RepoList(links)| <= |links|
    ensures forall r :: r in RepoList(links) ==> StartsWith(r.url, "https://github.com/")
  {
    if links != [] {
      var l := links[|links| - 1];
      RepoListSpec(links[..|links| - 1]);
      if RepoPath(l.href) {
        var u := "https://github.com" + l.href;
        assert u[..19] == "https://github.com" + l.href[..1];
      }
    }
  }

  /**
   * The answer depends on the reply to the first query alone: two networks
   * that agree on it give the same answer, whatever they say to the other two.
   */
  lemma GitHubFirstQueryOnly(env: Env, net': Net, company: string)
    requires env.net(QueryRequest(env, GitHubQueries(company)[0])) == net'(QueryRequest(env, GitHubQueries(company)[0]))
    ensures var reply := env.net(GitHubRequest(env, company));
      var reply' := env.(net := net').net(GitHubRequest(env.(net := net'), company));
      Fetched(reply) == Fetched(reply') && (Fetched(reply) ==> GitHubReportOf(env.html(reply.body)) == GitHubReportOf(env.html(reply'.body)))
  {
  }

  // ------------------------------------------------------------------ feeds

  const FeedPaths: seq<string> := [
    "/feed", "/rss", "/feed.xml", "/rss.xml", "/atom.xml", "/blog/feed", "/blog/rss", "/feeds/posts/default" ]

  /**
   * A feed: one found by probing a common path (type `RSS/Atom`, status
   * `Active`), or one declared by a `<link>` tag with its type and title.
   */
  datatype Feed = ProbedFeed(url: string) | LinkedFeed(url: string, kind: string, title: string)

  datatype FeedReport = FeedReport(feeds: seq<Feed>, total: nat)

  function FeedUrl(f: Feed): string {
    f.url
  }

  function FeedProbes(url: string): seq<Request>
    requires HasScheme(url)
  {
    Candidates(HEAD, BaseUrl(url), FeedPaths, 5)
  }

  /** Every probe answering 200, in path order (the probing does not stop at the first). */
  function ProbedFeeds(net: Net, probes: seq<Request>): seq<Feed> {
    if probes == [] then []
    else
      var p := probes[|probes| - 1];
      ProbedFeeds(net, probes[..|probes| - 1]) + if IsOk(net(p)) then [ProbedFeed(p.url)] else []
  }

  /** The feed a `<link>` tag declares once its href is joined to `full`. */
  function TagFeed(t: LinkTag, full: string): Feed {
    LinkedFeed(full, t.kind, if t.title.Some? then t.title.value else "Feed")
  }

  /** Joining this tag's href raises (a tag without an href is never joined). */
  predicate JoinRaises(env: Env, url: string, t: LinkTag) {
    t.href != "" && env.urljoin(url, t.href).None?
  }

  /**
   * How many tags the loop handles: a join that raises leaves the loop
   * through the surrounding `except`, so the tags from it on add nothing.
   */
  function Handled(env: Env, url: string, tags: seq<LinkTag>): (k: nat)
    ensures k <= |tags|
    ensures forall j :: 0 <= j < k ==> !JoinRaises(env, url, tags[j])
    ensures k < |tags| ==> JoinRaises(env, url, tags[k])
  {
    if tags == [] || JoinRaises(env, url, tags[0]) then 0
    else 1 + Handled(env, url, tags[1..])
  }

  /** The feed tag `t` adds to `feeds`: none without an href, on a raising join or for a URL listed already. */
  function NewFeed(env: Env, url: string, feeds: seq<Feed>, t: LinkTag): seq<Feed> {
    var full := env.urljoin(url, t.href);
    if t.href != "" && full.Some? && full.value !in Keys(feeds, FeedUrl) then [TagFeed(t, full.value)] else []
  }

  /** The tags' feeds, each added only when its absolute URL is not listed yet. */
  function LinkedFeeds(env: Env, url: string, feeds: seq<Feed>, tags: seq<LinkTag>): seq<Feed> {
    if tags == [] then feeds
    else
      var before := LinkedFeeds(env, url, feeds, tags[..|tags| - 1]);
      before + NewFeed(env, url, before, tags[|tags| - 1])
  }

  /** The page's tags that the loop gets through, or none when the page fetch raised. */
  function HandledTags(env: Env, url: string): seq<LinkTag> {
    var page := env.net(Request(GET, url, 10));
    if Fetched(page) then
      var tags := env.html(page.body).feedLinks;
      tags[..Handled(env, url, tags)]
    else []
  }

  function FeedReportOf(env: Env, url: string): FeedReport
    requires HasScheme(url)
  {
    var feeds := LinkedFeeds(env, url, ProbedFeeds(env.net, FeedProbes(url)), HandledTags(env, url));
    FeedReport(feeds, |feeds|)
  }

  method ProbeFeeds(net: Net, probes: seq<Request>) returns (feeds: seq<Feed>)
    ensures feeds == ProbedFeeds(net, probes)
  {
    feeds := [];
    var i := 0;
    while i < |probes|
      invariant 0 <= i <= |probes|
      invariant feeds == ProbedFeeds(net, probes[..i])
    {
      assert probes[..i + 1][..i] == probes[..i];
      if IsOk(net(probes[i])) {
        feeds := feeds + [ProbedFeed(probes[i].url)];
      }
      i := i + 1;
    }
    assert probes[..i] == probes;
  }

  /** The tag loop: it stops at the first href whose join raises. */
  method AddLinkedFeeds(env: Env, url: string, start: seq<Feed>, tags: seq<LinkTag>) returns (feeds: seq<Feed>)
    ensures feeds == LinkedFeeds(env, url, start, tags[..Handled(env, url, tags)])
  {
    feeds := start;
    var i := 0;
    while i < |tags|
      invariant 0 <= i <= |tags|
      invariant i <= Handled(env, url, tags)
      invariant feeds == LinkedFeeds(env, url, start, tags[..i])
    {
      LinkedFeedsStep(env, url, start, tags, i);
      var href := tags[i].href;
      if href != "" {
        var full := env.urljoin(url, href);
        if full.None? {
          break;
        }
        if full.value !in Keys(feeds, FeedUrl) {
          feeds := feeds + [TagFeed(tags[i], full.value)];
        }
      }
      i := i + 1;
    }
    assert tags[..i] == tags[..Handled(env, url, tags)];
  }

  /** One more tag: its feed is appended when its join succeeds and lists a new URL. */
  lemma LinkedFeedsStep(env: Env, url: string, start: seq<Feed>, tags: seq<LinkTag>, i: nat)
    requires i < |tags|
    ensures LinkedFeeds(env, url, start, tags[..i + 1]) == LinkedFeeds(env, url, start, tags[..i]) + NewFeed(env, url, LinkedFeeds(env, url, start, tags[..i]), tags[i])
  {
    assert tags[..i + 1][..i] == tags[..i];
  }

  /**
   * The handler: a blank `url` is a 400; a host that `urlparse` cannot split
   * is a 500; failing probes, a failing page fetch and a raising join (which
   * ends the tag loop) are skipped.
   */
  method DiscoverFeeds(env: Env, url: string) returns (out: Outcome<FeedReport>)
    ensures Strip(url) == [] ==> out == BadRequest("URL is required")
    ensures Strip(url) != [] && InvalidNetloc(NormalizeUrl(Strip(url))) ==> out == ServerError("Feed discovery failed")
    ensures Strip(url) != [] && !InvalidNetloc(NormalizeUrl(Strip(url))) ==>
      out == Ok(FeedReportOf(env, NormalizeUrl(Strip(url))))
  {
    var target := Strip(url);
    if target == [] {
      return BadRequest("URL is required");
    }
    target := NormalizeUrl(target);
    if InvalidNetloc(target) {
      return ServerError("Feed discovery failed");
    }
    var feeds := ProbeFeeds(env.net, FeedProbes(target));
    var response := env.net(Request(GET, target, 10));
    if Fetched(response) {
      feeds := AddLinkedFeeds(env, target, feeds, env.html(response.body).feedLinks);
    }
    out := Ok(FeedReport(feeds, |feeds|));
  }

  /** A probed feed is listed exactly for each path answering 200. */
  lemma {:induction false} ProbedFeedsSpec(net: Net, probes: seq<Request>)
    ensures |ProbedFeeds(net, probes)| <= |probes|
    ensures forall i :: 0 <= i < |probes| && IsOk(net(probes[i])) ==> ProbedFeed(probes[i].url) in ProbedFeeds(net, probes)
    ensures forall f :: f in ProbedFeeds(net, probes) ==> exists i :: 0 <= i < |probes| && f == ProbedFeed(probes[i].url) && IsOk(net(probes[i]))
  {
    if probes != [] {
      var q := probes[..|probes| - 1];
      ProbedFeedsSpec(net, q);
      assert forall i :: 0 <= i < |q| ==> q[i] == probes[i];
    }
  }

  /** A tag only adds a URL not listed yet, so a duplicate-free list stays so. */
  lemma {:induction false} LinkedFeedsNoDup(env: Env, url: string, feeds: seq<Feed>, tags: seq<LinkTag>)
    requires NoDup(Keys(feeds, FeedUrl))
    ensures NoDup(Keys(LinkedFeeds(env, url, feeds, tags), FeedUrl))
  {
    if tags != [] {
      var q, t := tags[..|tags| - 1], tags[|tags| - 1];
      LinkedFeedsNoDup(env, url, feeds, q);
      var before := LinkedFeeds(env, url, feeds, q);
      var full := env.urljoin(url, t.href);
      if t.href != "" && full.Some? && full.value !in Keys(before, FeedUrl) {
        assert Keys(before + [TagFeed(t, full.value)], FeedUrl) == Keys(before, FeedUrl) + [full.value];
      }
    }
  }

  /** The tags only append: every feed listed before stays, in place. */
  lemma {:induction false} LinkedFeedsKeeps(env: Env, url: string, feeds: seq<Feed>, tags: seq<LinkTag>)
    ensures feeds <= LinkedFeeds(env, url, feeds, tags)
  {
    if tags != [] {
      LinkedFeedsKeeps(env, url, feeds, tags[..|tags| - 1]);
    }
  }

  /** Every tag with an href whose join succeeds ends up with its absolute URL listed. */
  lemma {:induction false} LinkedFeedsCover(env: Env, url: string, feeds: seq<Feed>, tags: seq<LinkTag>)
    ensures forall i :: 0 <= i < |tags| && tags[i].href != "" && env.urljoin(url, tags[i].href).Some? ==>
      env.urljoin(url, tags[i].href).value in Keys(LinkedFeeds(env, url, feeds, tags), FeedUrl)
  {
    if tags != [] {
      var q, t := tags[..|tags| - 1], tags[|tags| - 1];
      LinkedFeedsCover(env, url, feeds, q);
      LinkedFeedsLast(env, url, feeds, tags);
      var before := LinkedFeeds(env, url, feeds, q);
      var after := LinkedFeeds(env, url, feeds, tags);
      forall i | 0 <= i < |q| && q[i].href != "" && env.urljoin(url, q[i].href).Some?
        ensures env.urljoin(url, q[i].href).value in Keys(after, FeedUrl)
      {
        KeysPrefix(before, after, FeedUrl, env.urljoin(url, q[i].href).value);
      }
      assert forall i :: 0 <= i < |q| ==> q[i] == tags[i];
    }
  }

  /** The last tag's URL is listed after it, and what was listed before stays. */
  lemma LinkedFeedsLast(env: Env, url: string, feeds: seq<Feed>, tags: seq<LinkTag>)
    requires tags != []
    ensures LinkedFeeds(env, url, feeds, tags[..|tags| - 1]) <= LinkedFeeds(env, url, feeds, tags)
    ensures tags[|tags| - 1].href != "" && env.urljoin(url, tags[|tags| - 1].href).Some? ==>
      env.urljoin(url, tags[|tags| - 1].href).value in Keys(LinkedFeeds(env, url, feeds, tags), FeedUrl)
  {
    var before := LinkedFeeds(env, url, feeds, tags[..|tags| - 1]);
    var t := tags[|tags| - 1];
    var x := env.urljoin(url, t.href);
    if t.href != "" && x.Some? && x.value !in Keys(before, FeedUrl) {
      assert Keys(before + [TagFeed(t, x.value)], FeedUrl) == Keys(before, FeedUrl) + [x.value];
    }
  }

  /** Every feed the tags add is the feed one of them declares, under its joined URL. */
  lemma {:induction false} LinkedFeedsFrom(env: Env, url: string, feeds: seq<Feed>, tags: seq<LinkTag>)
    ensures forall f :: f in LinkedFeeds(env, url, feeds, tags) ==>
      f in feeds ||
      exists i :: 0 <= i < |tags| && tags[i].href != "" && env.urljoin(url, tags[i].href) == Some(f.url) && f == TagFeed(tags[i], f.url)
  {
    if tags != [] {
      var q := tags[..|tags| - 1];
      LinkedFeedsFrom(env, url, feeds, q);
      assert forall i :: 0 <= i < |q| ==> q[i] == tags[i];
    }
  }

  function RequestUrl(r: Request): string {
    r.url
  }

  /** Probes of distinct URLs yield feeds of distinct URLs. */
  lemma {:induction false} ProbedFeedsNoDup(net: Net, probes: seq<Request>)
    requires NoDup(Keys(probes, RequestUrl))
    ensures NoDup(Keys(ProbedFeeds(net, probes), FeedUrl))
  {
    if probes != [] {
      var q, p := probes[..|probes| - 1], probes[|probes| - 1];
      var kp, kq := Keys(probes, RequestUrl), Keys(q, RequestUrl);
      assert kq == kp[..|q|];
      ProbedFeedsNoDup(net, q);
      if IsOk(net(p)) {
        var before := ProbedFeeds(net, q);
        var kb := Keys(before, FeedUrl);
        ProbedFeedUrls(net, q);
        assert p.url !in kq by {
          assert forall i :: 0 <= i < |q| ==> kq[i] == kp[i] && kp[i] != kp[|q|];
        }
        AddIfSpec(kb, true, p.url);
        assert Keys(before + [ProbedFeed(p.url)], FeedUrl) == AddIf(kb, true, p.url);
      }
    }
  }

  /** Every feed found by probing carries the URL of one of the probes. */
  lemma {:induction false} ProbedFeedUrls(net: Net, probes: seq<Request>)
    ensures forall u :: u in Keys(ProbedFeeds(net, probes), FeedUrl) ==> u in Keys(probes, RequestUrl)
  {
    if probes != [] {
      var q, p := probes[..|probes| - 1], probes[|probes| - 1];
      var kp, kq := Keys(probes, RequestUrl), Keys(q, RequestUrl);
      assert kq == kp[..|q|] && kp[|q|] == p.url;
      ProbedFeedUrls(net, q);
      var before := ProbedFeeds(net, q);
      if IsOk(net(p)) {
        assert Keys(before + [ProbedFeed(p.url)], FeedUrl) == Keys(before, FeedUrl) + [p.url];
      }
    }
  }

  /** Distinct paths under one base give distinct probe URLs, so each probed feed is listed once. */
  lemma ProbedFeedsDistinct(net: Net, base: string, paths: seq<string>)
    requires NoDup(paths)
    ensures NoDup(Keys(ProbedFeeds(net, Candidates(HEAD, base, paths, 5)), FeedUrl))
  {
    var probes := Candidates(HEAD, base, paths, 5);
    var k := Keys(probes, RequestUrl);
    forall i, j | 0 <= i < j < |k| ensures k[i] != k[j] {
      assert k[i][|base|..] == paths[i];
      assert k[j][|base|..] == paths[j];
    }
    ProbedFeedsNoDup(net, probes);
  }

  /** The feed report lists each URL once and its total is the number listed. */
  lemma FeedReportSpec(env: Env, url: string)
    requires HasScheme(url)
    ensures NoDup(Keys(FeedReportOf(env, url).feeds, FeedUrl))
    ensures FeedReportOf(env, url).total == |FeedReportOf(env, url).feeds|
  {
    assert NoDup(FeedPaths);
    ProbedFeedsDistinct(env.net, BaseUrl(url), FeedPaths);
    LinkedFeedsNoDup(env, url, ProbedFeeds(env.net, FeedProbes(url)), HandledTags(env, url));
  }

  /**
   * Where the report's feeds come from: each is a probed path answering 200 or
   * the feed of a tag the loop got through; and each such tag with an href is listed.
   */
  lemma FeedReportSources(env: Env, url: string)
    requires HasScheme(url)
    ensures forall f :: f in FeedReportOf(env, url).feeds ==>
      (exists i :: 0 <= i < |FeedProbes(url)| && f == ProbedFeed(FeedProbes(url)[i].url) && IsOk(env.net(FeedProbes(url)[i]))) ||
      (exists i :: 0 <= i < |HandledTags(env, url)| && HandledTags(env, url)[i].href != "" &&
        env.urljoin(url, HandledTags(env, url)[i].href) == Some(f.url) && f == TagFeed(HandledTags(env, url)[i], f.url))
    ensures forall i :: 0 <= i < |HandledTags(env, url)| && HandledTags(env, url)[i].href != "" ==>
      env.urljoin(url, HandledTags(env, url)[i].href).Some? &&
      env.urljoin(url, HandledTags(env, url)[i].href).value in Keys(FeedReportOf(env, url).feeds, FeedUrl)
  {
    var probed := ProbedFeeds(env.net, FeedProbes(url));
    var tags := HandledTags(env, url);
    ProbedFeedsSpec(env.net, FeedProbes(url));
    LinkedFeedsFrom(env, url, probed, tags);
    LinkedFeedsCover(env, url, probed, tags);
    assert forall i :: 0 <= i < |tags| ==> !JoinRaises(env, url, tags[i]);
  }
}
