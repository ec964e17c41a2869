/**
 * The basic endpoints: contact extraction (`/api/scrape/contacts`), WHOIS
 * lookup (`/api/whois/lookup`), technology detection (`/api/tech/detect`),
 * sitemap parsing (`/api/sitemap/parse`) and metadata extraction
 * (`/api/metadata/extract`).
 */
module Core {
  import opened Options
  import opened Text
  import opened Lists
  import opened Urls
  import opened Web

  // ---------------------------------------------------------------- contacts

  const EmailPattern := "\\b[A-Za-z0-9._%+-]+@[A-Za-z0-9.-]+\\.[A-Z|a-z]{2,}\\b"
  const PhonePattern := "(?:\\+\\d{1,3}[-.\\s]?)?\\(?\\d{3}\\)?[-.\\s]?\\d{3}[-.\\s]?\\d{4}"

  /** Platform name and link pattern, in the order the handler tries them. */
  const SocialPatterns: seq<(string, string)> := [
    ("LinkedIn", "https?://(?:www\\.)?linkedin\\.com/(?:company|in)/[^\\s<>\"]+"),
    ("Twitter", "https?://(?:www\\.)?(?:twitter|x)\\.com/[^\\s<>\"]+"),
    ("Facebook", "https?://(?:www\\.)?facebook\\.com/[^\\s<>\"]+"),
    ("Instagram", "https?://(?:www\\.)?instagram\\.com/[^\\s<>\"]+"),
    ("YouTube", "https?://(?:www\\.)?youtube\\.com/[^\\s<>\"]+"),
    ("GitHub", "https?://(?:www\\.)?github\\.com/[^\\s<>\"]+") ]

  datatype Contacts = Contacts(url: string, emails: seq<string>, phones: seq<string>, socialLinks: seq<(string, string)>)

  /** `list(set(found))[:n]`. */
  function ShortList(found: seq<string>, n: nat): seq<string> {
    Take(Distinct(found), n)
  }

  /** `social_links` after the loop: a platform whose pattern matched maps to its first match. */
  function SocialLinks(env: Env, patterns: seq<(string, string)>, haystack: string): seq<(string, string)> {
    if patterns == [] then []
    else
      var d := SocialLinks(env, patterns[..|patterns| - 1], haystack);
      var p := patterns[|patterns| - 1];
      var matches := env.findall(p.1, haystack);
      if matches != [] then Put(d, p.0, matches[0]) else d
  }

  function ContactsOf(env: Env, url: string, body: string): Contacts {
    var page := env.html(body);
    Contacts(url, ShortList(env.findall(EmailPattern, page.text), 10), ShortList(env.findall(PhonePattern, page.text), 10),
             SocialLinks(env, SocialPatterns, page.text + " " + page.markup))
  }

  function ContactsRequest(url: string): Request {
    Request(GET, NormalizeUrl(Strip(url)), 15)
  }

  /** `for platform, pattern in social_patterns.items()`. */
  method CollectSocial(env: Env, patterns: seq<(string, string)>, haystack: string) returns (links: seq<(string, string)>)
    ensures links == SocialLinks(env, patterns, haystack)
  {
    links := [];
    var i := 0;
    while i < |patterns|
      invariant 0 <= i <= |patterns|
      invariant links == SocialLinks(env, patterns[..i], haystack)
    {
      assert patterns[..i + 1][..i] == patterns[..i];
      var matches := env.findall(patterns[i].1, haystack);
      if matches != [] {
        links := Put(links, patterns[i].0, matches[0]);
      }
      i := i + 1;
    }
    assert patterns[..i] == patterns;
  }

  /** The handler: a blank `url` is a 400, a request that raises is a 500; any response is scanned. */
  method ScrapeContacts(env: Env, url: string) returns (out: Outcome<Contacts>)
    ensures Strip(url) == [] ==> out == BadRequest("URL is required")
    ensures Strip(url) != [] && !Fetched(env.net(ContactsRequest(url))) ==> out == ServerError("Failed to fetch URL")
    ensures Strip(url) != [] && Fetched(env.net(ContactsRequest(url))) ==>
      out == Ok(ContactsOf(env, NormalizeUrl(Strip(url)), env.net(ContactsRequest(url)).body))
  {
    var target := Strip(url);
    if target == [] {
      return BadRequest("URL is required");
    }
    target := NormalizeUrl(target);
    var response := env.net(Request(GET, target, 15));
    if !Fetched(response) {
      return ServerError("Failed to fetch URL");
    }
    var page := env.html(response.body);
    var emails := Distinct(env.findall(EmailPattern, page.text));
    var phones := Distinct(env.findall(PhonePattern, page.text));
    var social := CollectSocial(env, SocialPatterns, page.text + " " + page.markup);
    out := Ok(Contacts(target, Take(emails, 10), Take(phones, 10), social));
  }

  /**
   * The e-mail and phone lists: distinct, at most `n`, each found on the page,
   * and every distinct match is kept when there are at most `n`.
   */
  lemma ShortListSpec(found: seq<string>, n: nat)
    ensures NoDup(ShortList(found, n)) && |ShortList(found, n)| <= n
    ensures forall e :: e in ShortList(found, n) ==> e in found
    ensures |Distinct(found)| <= n ==> forall e :: e in found ==> e in ShortList(found, n)
  {
    DistinctSpec(found);
    var d := Distinct(found);
    var r := Take(d, n);
    assert forall i :: 0 <= i < |r| ==> r[i] == d[i];
    if |d| <= n {
      assert r == d;
    }
  }

  /** Each platform is listed at most once, and only platforms of the catalog are listed. */
  lemma {:induction false} SocialDistinct(env: Env, patterns: seq<(string, string)>, haystack: string)
    ensures NoDup(Keys(SocialLinks(env, patterns, haystack), KeyOf))
    ensures forall x :: x in Keys(SocialLinks(env, patterns, haystack), KeyOf) ==> x in Keys(patterns, KeyOf)
  {
    if patterns != [] {
      var q, p := patterns[..|patterns| - 1], patterns[|patterns| - 1];
      SocialDistinct(env, q, haystack);
      var matches := env.findall(p.1, haystack);
      if matches != [] {
        PutSpec(SocialLinks(env, q, haystack), p.0, matches[0]);
      }
      assert Keys(patterns, KeyOf) == Keys(q, KeyOf) + [p.0];
    }
  }

  /** With distinct platform names, a platform is listed exactly when its pattern matched. */
  lemma {:induction false} SocialKeys(env: Env, patterns: seq<(string, string)>, haystack: string)
    requires NoDup(Keys(patterns, KeyOf))
    ensures forall i :: 0 <= i < |patterns| ==>
      (patterns[i].0 in Keys(SocialLinks(env, patterns, haystack), KeyOf) <==> env.findall(patterns[i].1, haystack) != [])
  {
    if patterns != [] {
      var q, p := patterns[..|patterns| - 1], patterns[|patterns| - 1];
      LastKeyFresh(patterns);
      SocialKeys(env, q, haystack);
      SocialDistinct(env, q, haystack);
      var d := SocialLinks(env, q, haystack);
      var after := SocialLinks(env, patterns, haystack);
      var matches := env.findall(p.1, haystack);
      assert forall x :: x in Keys(after, KeyOf) <==> x in Keys(d, KeyOf) || (matches != [] && x == p.0) by {
        if matches != [] {
          PutSpec(d, p.0, matches[0]);
        }
      }
      assert p.0 !in Keys(d, KeyOf);
      forall i | 0 <= i < |patterns|
        ensures patterns[i].0 in Keys(after, KeyOf) <==> env.findall(patterns[i].1, haystack) != []
      {
        if i < |q| {
          assert patterns[i] == q[i];
        }
      }
    }
  }

  /** With distinct keys, the last key is none of the earlier ones. */
  lemma LastKeyFresh(patterns: seq<(string, string)>)
    requires patterns != [] && NoDup(Keys(patterns, KeyOf))
    ensures var q := patterns[..|patterns| - 1];
      NoDup(Keys(q, KeyOf)) && patterns[|patterns| - 1].0 !in Keys(q, KeyOf) &&
      forall i :: 0 <= i < |q| ==> q[i].0 != patterns[|patterns| - 1].0
  {
    var q := patterns[..|patterns| - 1];
    var kp, kq := Keys(patterns, KeyOf), Keys(q, KeyOf);
    assert forall i :: 0 <= i < |q| ==> kq[i] == kp[i];
    assert kp[|patterns| - 1] == patterns[|patterns| - 1].0;
  }

  /** A listed platform holds its pattern's first match. */
  lemma {:induction false} SocialValues(env: Env, patterns: seq<(string, string)>, haystack: string)
    requires NoDup(Keys(patterns, KeyOf))
    ensures forall i :: 0 <= i < |patterns| && env.findall(patterns[i].1, haystack) != [] ==>
      (patterns[i].0, env.findall(patterns[i].1, haystack)[0]) in SocialLinks(env, patterns, haystack)
  {
    if patterns != [] {
      var q, p := patterns[..|patterns| - 1], patterns[|patterns| - 1];
      LastKeyFresh(patterns);
      SocialValues(env, q, haystack);
      var d := SocialLinks(env, q, haystack);
      var matches := env.findall(p.1, haystack);
      if matches != [] {
        PutSpec(d, p.0, matches[0]);
        assert SocialLinks(env, patterns, haystack) == Put(d, p.0, matches[0]);
      } else {
        assert SocialLinks(env, patterns, haystack) == d;
      }
      forall i | 0 <= i < |q| ensures patterns[i] == q[i] {
      }
    }
  }

  /** The six platform names are distinct. */
  lemma SocialPlatformsDistinct()
    ensures NoDup(Keys(SocialPatterns, KeyOf))
  {
    var k := Keys(SocialPatterns, KeyOf);
    assert k == ["LinkedIn", "Twitter", "Facebook", "Instagram", "YouTube", "GitHub"];
    assert k[0][0] == 'L' && k[1][0] == 'T' && k[2][0] == 'F' && k[3][0] == 'I' && k[4][0] == 'Y' && k[5][0] == 'G';
  }

  // ------------------------------------------------------------------- WHOIS

  const WhoisNote := "Full WHOIS data requires API key"

  /** `whois_data`: the service's JSON body when it came back and parsed, otherwise `{}` (None). */
  datatype WhoisReport = WhoisReport(domain: string, ipAddress: string, whoisData: Option<string>, note: string)

  const WhoisService := "https://www.whoisxmlapi.com/whoisserver/WhoisService?apiKey=at_00000000000000000000000000000&domainName="

  function WhoisRequest(domain: string): Request {
    Request(GET, WhoisService + domain + "&outputFormat=JSON", 10)
  }

  /**
   * What `socket.gethostbyname` does with a name: returns an address, raises
   * `socket.gaierror` (the name does not resolve), or raises anything else,
   * such as the `UnicodeError` the IDNA codec gives for an empty label.
   */
  datatype Resolution = Resolved(ip: string) | Unresolved | ResolverError

  /**
   * The handler. `resolve` stands for `socket.gethostbyname` and `isJson` for
   * whether the service's body parses; only `gaierror` is caught, so any other
   * resolver error is a 500.
   */
  method WhoisLookup(env: Env, resolve: string -> Resolution, isJson: string -> bool, domain: string)
    returns (out: Outcome<WhoisReport>)
    ensures Strip(domain) == [] ==> out == BadRequest("Domain is required")
    ensures Strip(domain) != [] && resolve(WhoisDomain(Strip(domain))).ResolverError? ==>
      out == ServerError("WHOIS lookup failed")
    ensures Strip(domain) != [] && !resolve(WhoisDomain(Strip(domain))).ResolverError? ==>
      out.Ok? && out.value.domain == WhoisDomain(Strip(domain))
    ensures out.Ok? ==> '/' !in out.value.domain && out.value.note == WhoisNote
    ensures out.Ok? ==>
      (out.value.ipAddress == if resolve(out.value.domain).Resolved? then resolve(out.value.domain).ip else "Not found")
    ensures out.Ok? ==>
      var reply := env.net(WhoisRequest(out.value.domain));
      out.value.whoisData == if Fetched(reply) && isJson(reply.body) then Some(reply.body) else None
  {
    var host := Strip(domain);
    if host == [] {
      return BadRequest("Domain is required");
    }
    host := WhoisDomain(host);
    var ip := "Not found";
    var resolved := resolve(host);
    if resolved.ResolverError? {
      return ServerError("WHOIS lookup failed");
    }
    if resolved.Resolved? {
      ip := resolved.ip;
    }
    var data := None;
    var reply := env.net(WhoisRequest(host));
    if Fetched(reply) && isJson(reply.body) {
      data := Some(reply.body);
    }
    out := Ok(WhoisReport(host, ip, data, WhoisNote));
  }

  // ------------------------------------------------------ technology detection

  /** A technology and the substrings whose presence in the page reveals it. */
  datatype Check = Check(name: string, needles: seq<string>)

  function LabelOf(c: Check): string {
    c.name
  }

  /** The names of the checks that hold, in catalog order. */
  function Detected(checks: seq<Check>, html: string): seq<string> {
    if checks == [] then []
    else
      var c := checks[|checks| - 1];
      AddIf(Detected(checks[..|checks| - 1], html), AnyIn(html, c.needles), c.name)
  }

  const FrameworkChecks: seq<Check> := [
    Check("React", ["react", "react-"]), Check("Vue.js", ["vue", "vue.js"]),
    Check("Angular", ["angular", "ng-"]), Check("Next.js", ["next", "_next"]) ]
  const CmsChecks: seq<Check> := [
    Check("WordPress", ["wp-content", "wordpress"]), Check("Shopify", ["shopify"]),
    Check("Wix", ["wix.com"]), Check("Squarespace", ["squarespace"]) ]
  const AnalyticsChecks: seq<Check> := [Check("Google Analytics", ["google-analytics", "gtag"]), Check("Hotjar", ["hotjar"])]
  const LibraryChecks: seq<Check> := [
    Check("jQuery", ["jquery"]), Check("Bootstrap", ["bootstrap"]), Check("Tailwind CSS", ["tailwind"]) ]

  datatype Technologies = Technologies(
    frameworks: seq<string>, cms: seq<string>, analytics: seq<string>, hosting: seq<string>, libraries: seq<string>)

  datatype TechReport = TechReport(url: string, technologies: Technologies)

  /** The framework tests, appended in the handler's order. */
  function Frameworks(html: string): seq<string> {
    var r := AddIf([], Contains(html, "react") || Contains(html, "react-"), "React");
    var r := AddIf(r, Contains(html, "vue") || Contains(html, "vue.js"), "Vue.js");
    var r := AddIf(r, Contains(html, "angular") || Contains(html, "ng-"), "Angular");
    AddIf(r, Contains(html, "next") || Contains(html, "_next"), "Next.js")
  }

  function Cms(html: string): seq<string> {
    var r := AddIf([], Contains(html, "wp-content") || Contains(html, "wordpress"), "WordPress");
    var r := AddIf(r, Contains(html, "shopify"), "Shopify");
    var r := AddIf(r, Contains(html, "wix.com"), "Wix");
    AddIf(r, Contains(html, "squarespace"), "Squarespace")
  }

  function Analytics(html: string): seq<string> {
    var r := AddIf([], Contains(html, "google-analytics") || Contains(html, "gtag"), "Google Analytics");
    AddIf(r, Contains(html, "hotjar"), "Hotjar")
  }

  function Libraries(html: string): seq<string> {
    var r := AddIf([], Contains(html, "jquery"), "jQuery");
    var r := AddIf(r, Contains(html, "bootstrap"), "Bootstrap");
    AddIf(r, Contains(html, "tailwind"), "Tailwind CSS")
  }

  /** `headers.get('Server', 'Unknown')`, listed unless it is `Unknown`. */
  function Hosting(server: Option<string>): seq<string> {
    var name := if server.Some? then server.value else "Unknown";
    AddIf([], name != "Unknown", name)
  }

  function TechOf(html: string, server: Option<string>): Technologies {
    Technologies(Frameworks(html), Cms(html), Analytics(html), Hosting(server), Libraries(html))
  }

  function TechRequest(url: string): Request {
    Request(GET, NormalizeUrl(Strip(url)), 15)
  }

  /** The handler: a blank `url` is a 400, a request that raises is a 500; any response is inspected. */
  method DetectTech(env: Env, url: string) returns (out: Outcome<TechReport>)
    ensures Strip(url) == [] ==> out == BadRequest("URL is required")
    ensures Strip(url) != [] && !Fetched(env.net(TechRequest(url))) ==> out == ServerError("Tech detection failed")
    ensures Strip(url) != [] && Fetched(env.net(TechRequest(url))) ==>
      var reply := env.net(TechRequest(url));
      out == Ok(TechReport(NormalizeUrl(Strip(url)), TechOf(Lower(reply.body), reply.server)))
  {
    var target := Strip(url);
    if target == [] {
      return BadRequest("URL is required");
    }
    target := NormalizeUrl(target);
    var response := env.net(Request(GET, target, 15));
    if !Fetched(response) {
      return ServerError("Tech detection failed");
    }
    var html := Lower(response.body);
    out := Ok(TechReport(target, TechOf(html, response.server)));
  }

  lemma DetectedSnoc(checks: seq<Check>, c: Check, html: string)
    ensures Detected(checks + [c], html) == AddIf(Detected(checks, html), AnyIn(html, c.needles), c.name)
  {
    assert (checks + [c])[..|checks|] == checks;
  }

  lemma AnyInPair(html: string, a: string, b: string)
    ensures AnyIn(html, [a, b]) <==> Contains(html, a) || Contains(html, b)
  {
    if Contains(html, a) { assert [a, b][0] == a; }
    if Contains(html, b) { assert [a, b][1] == b; }
  }

  lemma AnyInOne(html: string, a: string)
    ensures AnyIn(html, [a]) <==> Contains(html, a)
  {
    if Contains(html, a) { assert [a][0] == a; }
  }

  /** Only catalog names are listed, each at most once when the catalog's names are distinct. */
  lemma {:induction false} DetectedDistinct(checks: seq<Check>, html: string)
    ensures forall x :: x in Detected(checks, html) ==> x in Keys(checks, LabelOf)
    ensures NoDup(Keys(checks, LabelOf)) ==> NoDup(Detected(checks, html))
  {
    if checks != [] {
      var q, c := checks[..|checks| - 1], checks[|checks| - 1];
      DetectedDistinct(q, html);
      var kc, kq := Keys(checks, LabelOf), Keys(q, LabelOf);
      assert kc == kq + [c.name];
      if NoDup(kc) {
        assert forall i :: 0 <= i < |kq| ==> kq[i] == kc[i];
        assert c.name !in kq;
      }
      AddIfSpec(Detected(q, html), AnyIn(html, c.needles), c.name);
    }
  }

  /** With distinct names, a technology is detected exactly when one of its substrings occurs. */
  lemma {:induction false} DetectedIff(checks: seq<Check>, html: string, i: int)
    requires NoDup(Keys(checks, LabelOf)) && 0 <= i < |checks|
    ensures checks[i].name in Detected(checks, html) <==> AnyIn(html, checks[i].needles)
  {
    var q, c := checks[..|checks| - 1], checks[|checks| - 1];
    var kc, kq := Keys(checks, LabelOf), Keys(q, LabelOf);
    assert kc == kq + [c.name];
    assert forall j :: 0 <= j < |kq| ==> kq[j] == kc[j];
    AddIfSpec(Detected(q, html), AnyIn(html, c.needles), c.name);
    if i < |q| {
      DetectedIff(q, html, i);
      assert kc[i] != kc[|checks| - 1];
    } else {
      DetectedDistinct(q, html);
      assert c.name !in kq;
    }
  }

  /** The handler's framework tests are the framework catalog, test for test and in order. */
  lemma FrameworksCatalog(html: string)
    ensures Frameworks(html) == Detected(FrameworkChecks, html)
  {
    var c := FrameworkChecks;
    assert c == [] + [c[0]] + [c[1]] + [c[2]] + [c[3]];
    DetectedSnoc([], c[0], html);
    DetectedSnoc([c[0]], c[1], html);
    DetectedSnoc([c[0], c[1]], c[2], html);
    DetectedSnoc([c[0], c[1], c[2]], c[3], html);
    AnyInPair(html, "react", "react-");
    AnyInPair(html, "vue", "vue.js");
    AnyInPair(html, "angular", "ng-");
    AnyInPair(html, "next", "_next");
    assert [] + [c[0]] == [c[0]] && [c[0]] + [c[1]] == [c[0], c[1]] && [c[0], c[1]] + [c[2]] == [c[0], c[1], c[2]];
    assert [c[0], c[1], c[2]] + [c[3]] == c;
  }

  lemma CmsCatalog(html: string)
    ensures Cms(html) == Detected(CmsChecks, html)
  {
    var c := CmsChecks;
    DetectedSnoc([], c[0], html);
    DetectedSnoc([c[0]], c[1], html);
    DetectedSnoc([c[0], c[1]], c[2], html);
    DetectedSnoc([c[0], c[1], c[2]], c[3], html);
    AnyInPair(html, "wp-content", "wordpress");
    AnyInOne(html, "shopify");
    AnyInOne(html, "wix.com");
    AnyInOne(html, "squarespace");
    assert [] + [c[0]] == [c[0]] && [c[0]] + [c[1]] == [c[0], c[1]] && [c[0], c[1]] + [c[2]] == [c[0], c[1], c[2]];
    assert [c[0], c[1], c[2]] + [c[3]] == c;
  }

  lemma AnalyticsCatalog(html: string)
    ensures Analytics(html) == Detected(AnalyticsChecks, html)
  {
    var c := AnalyticsChecks;
    DetectedSnoc([], c[0], html);
    DetectedSnoc([c[0]], c[1], html);
    AnyInPair(html, "google-analytics", "gtag");
    AnyInOne(html, "hotjar");
    assert [] + [c[0]] == [c[0]] && [c[0]] + [c[1]] == c;
  }

  lemma LibrariesCatalog(html: string)
    ensures Libraries(html) == Detected(LibraryChecks, html)
  {
    var c := LibraryChecks;
    DetectedSnoc([], c[0], html);
    DetectedSnoc([c[0]], c[1], html);
    DetectedSnoc([c[0], c[1]], c[2], html);
    AnyInOne(html, "jquery");
    AnyInOne(html, "bootstrap");
    AnyInOne(html, "tailwind");
    assert [] + [c[0]] == [c[0]] && [c[0]] + [c[1]] == [c[0], c[1]] && [c[0], c[1]] + [c[2]] == c;
  }

  /** Every category lists each technology at most once, and lists it exactly when its test holds. */
  lemma TechIff(html: string)
    ensures NoDup(Frameworks(html)) && NoDup(Cms(html)) && NoDup(Analytics(html)) && NoDup(Libraries(html))
    ensures forall i :: 0 <= i < |FrameworkChecks| ==>
      (FrameworkChecks[i].name in Frameworks(html) <==> AnyIn(html, FrameworkChecks[i].needles))
    ensures forall i :: 0 <= i < |CmsChecks| ==> (CmsChecks[i].name in Cms(html) <==> AnyIn(html, CmsChecks[i].needles))
    ensures forall i :: 0 <= i < |AnalyticsChecks| ==>
      (AnalyticsChecks[i].name in Analytics(html) <==> AnyIn(html, AnalyticsChecks[i].needles))
    ensures forall i :: 0 <= i < |LibraryChecks| ==>
      (LibraryChecks[i].name in Libraries(html) <==> AnyIn(html, LibraryChecks[i].needles))
  {
    FrameworksCatalog(html);
    CmsCatalog(html);
    AnalyticsCatalog(html);
    LibrariesCatalog(html);
    LabelsDistinct();
    DetectedDistinct(FrameworkChecks, html);
    DetectedDistinct(CmsChecks, html);
    DetectedDistinct(AnalyticsChecks, html);
    DetectedDistinct(LibraryChecks, html);
    forall i | 0 <= i < |FrameworkChecks| { DetectedIff(FrameworkChecks, html, i); }
    forall i | 0 <= i < |CmsChecks| { DetectedIff(CmsChecks, html, i); }
    forall i | 0 <= i < |AnalyticsChecks| { DetectedIff(AnalyticsChecks, html, i); }
    forall i | 0 <= i < |LibraryChecks| { DetectedIff(LibraryChecks, html, i); }
  }

  lemma LabelsDistinct()
    ensures NoDup(Keys(FrameworkChecks, LabelOf)) && NoDup(Keys(CmsChecks, LabelOf))
    ensures NoDup(Keys(AnalyticsChecks, LabelOf)) && NoDup(Keys(LibraryChecks, LabelOf))
  {
    FrameworkLabelsDistinct();
    CmsLabelsDistinct();
    var a := Keys(AnalyticsChecks, LabelOf);
    assert a[0][0] == 'G' && a[1][0] == 'H';
    var l := Keys(LibraryChecks, LabelOf);
    assert l[0][0] == 'j' && l[1][0] == 'B' && l[2][0] == 'T';
  }

  lemma FrameworkLabelsDistinct()
    ensures NoDup(Keys(FrameworkChecks, LabelOf))
  {
    var f := Keys(FrameworkChecks, LabelOf);
    assert f[0][0] == 'R' && f[1][0] == 'V' && f[2][0] == 'A' && f[3][0] == 'N';
  }

  lemma CmsLabelsDistinct()
    ensures NoDup(Keys(CmsChecks, LabelOf))
  {
    var c := Keys(CmsChecks, LabelOf);
    assert c[0][1] == 'o' && c[1][1] == 'h' && c[2][1] == 'i' && c[3][1] == 'q';
  }

  /** Hosting is exactly the `Server` header when present and not `Unknown`, otherwise empty. */
  lemma HostingSpec(server: Option<string>)
    ensures Hosting(server) == if server.Some? && server.value != "Unknown" then [server.value] else []
    ensures |Hosting(server)| <= 1
  {
  }

  // ----------------------------------------------------------------- sitemap

  const SitemapPaths: seq<string> := ["/sitemap.xml", "/sitemap_index.xml", "/sitemap-index.xml"]
  const MaxUrls := 100

  datatype SitemapReport = SitemapReport(url: string, urls: seq<string>, total: nat)

  /** `urljoin(url, path)` for an absolute path: the path on the URL's origin. */
  function SitemapProbes(url: string): seq<Request>
    requires HasScheme(url)
  {
    Candidates(GET, BaseUrl(url), SitemapPaths, 10)
  }

  /** The `loc` texts of the first candidate answering 200, or none. */
  function SitemapLocs(env: Env, url: string): seq<string>
    requires HasScheme(url)
  {
    match FirstOk(env.net, SitemapProbes(url))
    case Some(k) => env.xml(env.net(SitemapProbes(url)[k]).body, "loc")
    case None => []
  }

  function SitemapReportOf(env: Env, url: string): SitemapReport
    requires HasScheme(url)
  {
    var locs := SitemapLocs(env, url);
    SitemapReport(url, Take(locs, MaxUrls), |locs|)
  }

  /**
   * The handler: a blank `url` is a 400; a host that `urljoin` cannot split
   * is a 500 before any request; a candidate that raises or answers
   * otherwise than 200 is skipped.
   */
  method ParseSitemap(env: Env, url: string) returns (out: Outcome<SitemapReport>)
    ensures Strip(url) == [] ==> out == BadRequest("URL is required")
    ensures Strip(url) != [] && InvalidNetloc(NormalizeUrl(Strip(url))) ==> out == ServerError("Sitemap parsing failed")
    ensures Strip(url) != [] && !InvalidNetloc(NormalizeUrl(Strip(url))) ==>
      out == Ok(SitemapReportOf(env, NormalizeUrl(Strip(url))))
  {
    var target := Strip(url);
    if target == [] {
      return BadRequest("URL is required");
    }
    target := NormalizeUrl(target);
    if InvalidNetloc(target) {
      return ServerError("Sitemap parsing failed");
    }
    var found := FirstSitemap(env, target);
    out := Ok(SitemapReport(target, Take(found, MaxUrls), |found|));
  }

  /** `for sitemap_url in sitemap_urls`: extend with the locations of the first 200 and stop. */
  method FirstSitemap(env: Env, url: string) returns (found: seq<string>)
    requires HasScheme(url)
    ensures found == SitemapLocs(env, url)
  {
    var candidates := SitemapProbes(url);
    var hit := ProbeFirst(env.net, candidates);
    found := [];
    if hit.Some? {
      found := found + env.xml(env.net(candidates[hit.value]).body, "loc");
    }
  }

  /**
   * The listed URLs are the first 100 locations of the first sitemap answering
   * 200 (the three candidates tried in order), and the total counts them all.
   */
  lemma SitemapSpec(env: Env, url: string)
    requires HasScheme(url)
    ensures var r := SitemapReportOf(env, url);
      var locs := SitemapLocs(env, url);
      |r.urls| <= MaxUrls && r.urls == locs[..|r.urls|] && r.total == |locs| &&
      (r.total <= MaxUrls ==> r.urls == locs) && (r.total > MaxUrls ==> |r.urls| == MaxUrls)
    ensures (forall i :: 0 <= i < |SitemapPaths| ==> !IsOk(env.net(Request(GET, BaseUrl(url) + SitemapPaths[i], 10)))) ==>
      SitemapReportOf(env, url).total == 0
    ensures forall k :: (0 <= k < |SitemapPaths| && IsOk(env.net(Request(GET, BaseUrl(url) + SitemapPaths[k], 10))) &&
        (forall j :: 0 <= j < k ==> !IsOk(env.net(Request(GET, BaseUrl(url) + SitemapPaths[j], 10))))) ==>
      SitemapLocs(env, url) == env.xml(env.net(Request(GET, BaseUrl(url) + SitemapPaths[k], 10)).body, "loc")
  {
    var reqs := SitemapProbes(url);
    assert forall i :: 0 <= i < |SitemapPaths| ==> reqs[i] == Request(GET, BaseUrl(url) + SitemapPaths[i], 10);
    var hit := FirstOk(env.net, reqs);
    forall k | 0 <= k < |SitemapPaths| && IsOk(env.net(reqs[k])) && (forall j :: 0 <= j < k ==> !IsOk(env.net(reqs[j])))
      ensures hit == Some(k)
    {
      if hit.None? {
      } else if hit.value < k {
      } else if hit.value > k {
      }
    }
  }

  // ---------------------------------------------------------------- metadata

  datatype Metadata = Metadata(
    title: string, description: string, keywords: string, ogData: seq<(string, string)>, twitterData: seq<(string, string)>)

  datatype MetadataReport = MetadataReport(url: string, metadata: Metadata)

  /** A dictionary filled by assigning the pairs in order. */
  function Assigned(pairs: seq<(string, string)>): seq<(string, string)> {
    if pairs == [] then []
    else Put(Assigned(pairs[..|pairs| - 1]), pairs[|pairs| - 1].0, pairs[|pairs| - 1].1)
  }

  function OrEmpty(o: Option<string>): string {
    if o.Some? then o.value else ""
  }

  function MetadataOf(page: Page): Metadata {
    Metadata(if page.title.Some? then Strip(page.title.value) else "", OrEmpty(page.description), OrEmpty(page.keywords),
             Assigned(page.ogTags), Assigned(page.twitterTags))
  }

  function MetadataRequest(url: string): Request {
    Request(GET, NormalizeUrl(Strip(url)), 15)
  }

  /** `for tag in ...: data[key] = content`. */
  method AssignAll(pairs: seq<(string, string)>) returns (data: seq<(string, string)>)
    ensures data == Assigned(pairs)
  {
    data := [];
    var i := 0;
    while i < |pairs|
      invariant 0 <= i <= |pairs|
      invariant data == Assigned(pairs[..i])
    {
      assert pairs[..i + 1][..i] == pairs[..i];
      data := Put(data, pairs[i].0, pairs[i].1);
      i := i + 1;
    }
    assert pairs[..i] == pairs;
  }

  /** The handler: a blank `url` is a 400, a request that raises is a 500; any response is read. */
  method ExtractMetadata(env: Env, url: string) returns (out: Outcome<MetadataReport>)
    ensures Strip(url) == [] ==> out == BadRequest("URL is required")
    ensures Strip(url) != [] && !Fetched(env.net(MetadataRequest(url))) ==> out == ServerError("Metadata extraction failed")
    ensures Strip(url) != [] && Fetched(env.net(MetadataRequest(url))) ==>
      out == Ok(MetadataReport(NormalizeUrl(Strip(url)), MetadataOf(env.html(env.net(MetadataRequest(url)).body))))
  {
    var target := Strip(url);
    if target == [] {
      return BadRequest("URL is required");
    }
    target := NormalizeUrl(target);
    var response := env.net(Request(GET, target, 15));
    if !Fetched(response) {
      return ServerError("Metadata extraction failed");
    }
    var page := env.html(response.body);
    var title, description, keywords := "", "", "";
    if page.title.Some? {
      title := Strip(page.title.value);
    }
    if page.description.Some? {
      description := page.description.value;
    }
    if page.keywords.Some? {
      keywords := page.keywords.value;
    }
    var og := AssignAll(page.ogTags);
    var twitter := AssignAll(page.twitterTags);
    out := Ok(MetadataReport(target, Metadata(title, description, keywords, og, twitter)));
  }

  /** Pair `i` is the last one with its key. */
  predicate LastFor(pairs: seq<(string, string)>, i: int) {
    0 <= i < |pairs| && forall j :: i < j < |pairs| ==> pairs[j].0 != pairs[i].0
  }

  /**
   * Assigning in tag order: every key appears once, the keys are those of the
   * tags, and each key holds the content of its last tag.
   */
  lemma LastValueWins(pairs: seq<(string, string)>)
    ensures NoDup(Keys(Assigned(pairs), KeyOf))
    ensures forall x :: x in Keys(Assigned(pairs), KeyOf) <==> x in Keys(pairs, KeyOf)
    ensures forall i :: LastFor(pairs, i) ==> pairs[i] in Assigned(pairs)
  {
    AssignedKeys(pairs);
    AssignedLast(pairs);
  }

  lemma {:induction false} AssignedKeys(pairs: seq<(string, string)>)
    ensures NoDup(Keys(Assigned(pairs), KeyOf))
    ensures forall x :: x in Keys(Assigned(pairs), KeyOf) <==> x in Keys(pairs, KeyOf)
  {
    if pairs != [] {
      var q, p := pairs[..|pairs| - 1], pairs[|pairs| - 1];
      AssignedKeys(q);
      PutSpec(Assigned(q), p.0, p.1);
      assert Keys(pairs, KeyOf) == Keys(q, KeyOf) + [p.0];
    }
  }

  lemma {:induction false} AssignedLast(pairs: seq<(string, string)>)
    ensures forall i :: LastFor(pairs, i) ==> pairs[i] in Assigned(pairs)
  {
    if pairs != [] {
      var q, p := pairs[..|pairs| - 1], pairs[|pairs| - 1];
      AssignedLast(q);
      AssignedKeys(q);
      var d := Assigned(q);
      PutSpec(d, p.0, p.1);
      forall i | LastFor(pairs, i) ensures pairs[i] in Assigned(pairs) {
        if i < |q| {
          assert LastFor(q, i) && q[i] == pairs[i];
          assert pairs[i].0 != p.0;
        }
      }
    }
  }
}
