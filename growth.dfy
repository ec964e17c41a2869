/**
 * Growth signals (`/api/growth/signals`): nine subdomain probes worth 5 each,
 * then six fixed-weight checks (HTTPS, content words, hiring, a large sitemap,
 * social links, recent years). Level and recommendation use the thresholds 60
 * and 30 on the raw score, which can reach 120; the reported score is capped
 * at 100.
 */
module Growth {
  import opened Options
  import opened Text
  import opened Lists
  import opened Urls
  import opened Web
  import opened Scoring

  datatype GrowthSignal =
    | Subdomains(count: nat, shown: seq<string>)
    | SecureTransport
    | ContentActivity
    | HiringActivity
    | LargeSitemap(pages: nat)
    | SocialPresence(count: nat)
    | RecentContent

  function GrowthWeight(s: GrowthSignal): nat {
    match s
    case Subdomains(n, _) => 5 * n
    case SecureTransport => 10
    case ContentActivity => 15
    case HiringActivity => 20
    case LargeSitemap(_) => 10
    case SocialPresence(_) => 10
    case RecentContent => 10
  }

  const CommonSubdomains: seq<string> := ["blog", "app", "api", "dev", "staging", "docs", "support", "shop", "portal"]
  const ContentWords: seq<string> := ["blog", "news", "press", "updates", "announcements"]
  const CareersPaths: seq<string> := ["/careers", "/jobs", "/join-us", "/about/careers"]
  const SocialPattern := "(linkedin|twitter|facebook|instagram|youtube)\\.com"
  const CurrentYear := "2025"
  const RecentYear := "2024"

  const HighGrowth := "High Growth - Scaling rapidly"
  const ModerateGrowth := "Moderate Growth - Steady expansion"
  const EarlyStage := "Early Stage - Building foundation"
  const GrowthBands: seq<Band<string>> := [Band(60, HighGrowth), Band(30, ModerateGrowth)]
  const AdviceBands: seq<Band<string>> := [Band(60, "Priority outreach"), Band(30, "Monitor for changes")]
  const LastAdvice := "Early stage nurture"

  datatype GrowthReport = GrowthReport(
    score: int, level: string, signals: seq<GrowthSignal>, activeSubdomains: seq<string>, recommendation: string)

  /** The HEAD probe for `https://{sub}.{domain}`. */
  function SubdomainProbe(domain: string, sub: string): Request {
    Request(HEAD, "https://" + sub + "." + domain, 3)
  }

  /** The subdomains whose probe answers 200, in list order. */
  function ActiveSubdomains(net: Net, domain: string): seq<string> {
    Filter(CommonSubdomains, sub => IsOk(net(SubdomainProbe(domain, sub))))
  }

  /** The subdomain loop: each probe that answers 200 is recorded and adds 5. */
  method ProbeSubdomains(net: Net, domain: string) returns (active: seq<string>, gained: int)
    ensures active == ActiveSubdomains(net, domain)
    ensures gained == 5 * |active|
  {
    var up := sub => IsOk(net(SubdomainProbe(domain, sub)));
    active, gained := [], 0;
    var i := 0;
    while i < |CommonSubdomains|
      invariant 0 <= i <= |CommonSubdomains|
      invariant active == Filter(CommonSubdomains[..i], up)
      invariant gained == 5 * |active|
    {
      var sub := CommonSubdomains[i];
      assert CommonSubdomains[..i + 1][..i] == CommonSubdomains[..i];
      if IsOk(net(SubdomainProbe(domain, sub))) {
        active := active + [sub];
        gained := gained + 5;
      }
      i := i + 1;
    }
    assert CommonSubdomains[..i] == CommonSubdomains;
  }

  /** The HEAD probes of the careers paths off the site's origin, tried in order. */
  function CareersProbes(base: string): seq<Request> {
    Candidates(HEAD, base, CareersPaths, 5)
  }

  function SitemapRequest(base: string): Request {
    Request(GET, base + "/sitemap.xml", 10)
  }

  /** Number of `<loc>` entries when the sitemap answers 200, else 0. */
  function SitemapPages(env: Env, base: string): nat {
    var reply := env.net(SitemapRequest(base));
    if IsOk(reply) then |env.xml(reply.body, "loc")| else 0
  }

  /** What the handler measures before it scores: the evidence each check reads. */
  datatype GrowthFacts = GrowthFacts(
    active: seq<string>,  // subdomains answering 200, in list order
    secure: bool,         // the URL is `https://`
    content: bool,        // a content word occurs in the lower-cased page
    hiring: bool,         // a careers path answers 200, or the page mentions careers or hiring
    pages: nat,           // `<loc>` entries of a sitemap answering 200, else 0
    social: nat,          // social-network links matched in the lower-cased page
    recent: bool)         // the page mentions the current or the previous year

  /** The measurements for the normalised URL and the fetched page body. */
  function GrowthFactsOf(env: Env, url: string, body: string): GrowthFacts
    requires HasScheme(url)
  {
    var base := BaseUrl(url);
    var text := Lower(body);
    GrowthFacts(
      ActiveSubdomains(env.net, Netloc(url)),
      StartsWith(url, "https://"),
      AnyIn(text, ContentWords),
      FirstOk(env.net, CareersProbes(base)).Some? || Contains(text, "careers") || Contains(text, "we're hiring"),
      SitemapPages(env, base),
      |env.findall(SocialPattern, text)|,
      Contains(text, CurrentYear) || Contains(text, RecentYear))
  }

  /** The checks in handler order. */
  function GrowthRules(f: GrowthFacts): seq<Rule<GrowthSignal>> {
    [ Rule(f.active != [], 5 * |f.active|, Some(Subdomains(|f.active|, Take(f.active, 5)))),
      Rule(f.secure, 10, Some(SecureTransport)),
      Rule(f.content, 15, Some(ContentActivity)),
      Rule(f.hiring, 20, Some(HiringActivity)),
      Rule(f.pages > 50, 10, Some(LargeSitemap(f.pages))),
      Rule(f.social >= 3, 10, Some(SocialPresence(f.social))),
      Rule(f.recent, 10, Some(RecentContent)) ]
  }

  function ReportOf(f: GrowthFacts): GrowthReport {
    var rules := GrowthRules(f);
    var raw := Accrued(rules);
    GrowthReport(Min(100, raw), Classify(raw, GrowthBands, EarlyStage), Fired(rules), f.active,
                 Classify(raw, AdviceBands, LastAdvice))
  }

  function GrowthReportOf(env: Env, url: string, body: string): GrowthReport
    requires HasScheme(url)
  {
    ReportOf(GrowthFactsOf(env, url, body))
  }

  function GrowthTarget(url: string): string {
    NormalizeUrl(Strip(url))
  }

  /**
   * The handler: a blank `url` is a 400; a host that `urlparse` cannot split
   * and the page fetch raising are 500s;
   * a probe that raises or answers otherwise than 200 counts as absent.
   */
  method GrowthSignals(env: Env, url: string) returns (out: Outcome<GrowthReport>)
    ensures Strip(url) == [] ==> out == BadRequest("URL is required")
    ensures Strip(url) != [] && (InvalidNetloc(GrowthTarget(url)) || !Fetched(env.net(Request(GET, GrowthTarget(url), 15)))) ==>
      out == ServerError("Growth signals detection failed")
    ensures Strip(url) != [] && !InvalidNetloc(GrowthTarget(url)) && Fetched(env.net(Request(GET, GrowthTarget(url), 15))) ==>
      out == Ok(GrowthReportOf(env, GrowthTarget(url), env.net(Request(GET, GrowthTarget(url), 15)).body))
  {
    var target := Strip(url);
    if target == [] {
      return BadRequest("URL is required");
    }
    target := NormalizeUrl(target);
    if InvalidNetloc(target) {
      return ServerError("Growth signals detection failed");
    }
    var domain := Netloc(target);
    var base := BaseUrl(target);
    var active, gained := ProbeSubdomains(env.net, domain);
    var response := env.net(Request(GET, target, 15));
    if !Fetched(response) {
      return ServerError("Growth signals detection failed");
    }
    var text := Lower(response.body);
    var hiring := ProbeFirst(env.net, CareersProbes(base));
    var sitemap := env.net(SitemapRequest(base));
    var pages := if IsOk(sitemap) then |env.xml(sitemap.body, "loc")| else 0;
    var social := |env.findall(SocialPattern, text)|;
    var facts := GrowthFacts(active, StartsWith(target, "https://"), AnyIn(text, ContentWords),
      hiring.Some? || Contains(text, "careers") || Contains(text, "we're hiring"), pages, social,
      Contains(text, CurrentYear) || Contains(text, RecentYear));
    assert facts == GrowthFactsOf(env, target, response.body);
    var report := Score(facts, gained);
    out := Ok(report);
  }

  /** The accumulation: `growth_score` starts with the subdomain gain and each later check adds its weight. */
  method Score(facts: GrowthFacts, gained: int) returns (report: GrowthReport)
    requires gained == 5 * |facts.active|
    ensures report == ReportOf(facts)
  {
    var rules := [
      Rule(facts.active != [], gained, Some(Subdomains(|facts.active|, Take(facts.active, 5)))),
      Rule(facts.secure, 10, Some(SecureTransport)),
      Rule(facts.content, 15, Some(ContentActivity)),
      Rule(facts.hiring, 20, Some(HiringActivity)),
      Rule(facts.pages > 50, 10, Some(LargeSitemap(facts.pages))),
      Rule(facts.social >= 3, 10, Some(SocialPresence(facts.social))),
      Rule(facts.recent, 10, Some(RecentContent)) ];
    assert rules == GrowthRules(facts);
    var score, signals := Evaluate(rules);
    var level := Classify(score, GrowthBands, EarlyStage);
    var advice := Classify(score, AdviceBands, LastAdvice);
    report := GrowthReport(Min(100, score), level, signals, facts.active, advice);
  }

  /** Only listed subdomains are reported, in list order, each exactly when its probe answers 200. */
  lemma ActiveSubdomainsIff(net: Net, domain: string)
    ensures |ActiveSubdomains(net, domain)| <= 9
    ensures Subsequence(ActiveSubdomains(net, domain), CommonSubdomains)
    ensures forall sub :: sub in ActiveSubdomains(net, domain) <==>
      sub in CommonSubdomains && IsOk(net(SubdomainProbe(domain, sub)))
  {
    var up := sub => IsOk(net(SubdomainProbe(domain, sub)));
    FilterOrder(CommonSubdomains, up);
    forall sub ensures sub in ActiveSubdomains(net, domain) <==> sub in CommonSubdomains && up(sub) {
      FilterIff(CommonSubdomains, up, sub);
    }
  }

  /** The weights on offer: 5 per active subdomain plus 75 for the other checks. */
  lemma GrowthCapacity(f: GrowthFacts)
    ensures Capacity(GrowthRules(f)) == 5 * |f.active| + 75
  {
    var n := |f.active|;
    assert Weights(GrowthRules(f)) == [5 * n, 10, 15, 20, 10, 10, 10];
    CapacityIsSum(GrowthRules(f));
    SumByPartials([5 * n, 10, 15, 20, 10, 10, 10], [0, 5 * n, 5 * n + 10, 5 * n + 25, 5 * n + 45, 5 * n + 55, 5 * n + 65, 5 * n + 75]);
  }

  /** With at most nine listed subdomains the raw score is at most 120, and the reported one at most 100. */
  lemma GrowthBound(env: Env, url: string, body: string)
    requires HasScheme(url)
    ensures Accrued(GrowthRules(GrowthFactsOf(env, url, body))) <= 120
    ensures 0 <= GrowthReportOf(env, url, body).score <= 100
  {
    var f := GrowthFactsOf(env, url, body);
    GrowthCapacity(f);
    AccruedWithinCapacity(GrowthRules(f));
    ActiveSubdomainsIff(env.net, Netloc(url));
  }

  /**
   * The reported score is the raw score capped at 100, and level and
   * recommendation, read off the raw score, are those of the reported one.
   */
  lemma GrowthCapKeepsLevel(f: GrowthFacts)
    ensures ReportOf(f).score == Min(100, Accrued(GrowthRules(f)))
    ensures ReportOf(f).level == Classify(ReportOf(f).score, GrowthBands, EarlyStage)
    ensures ReportOf(f).recommendation == Classify(ReportOf(f).score, AdviceBands, LastAdvice)
  {
    var raw := Accrued(GrowthRules(f));
    RankCapped(raw, GrowthBands);
    RankCapped(raw, AdviceBands);
  }

  /** The raw score is the total weight of the reported signals, 5 per subdomain for the first. */
  lemma GrowthScoreFromSignals(f: GrowthFacts)
    ensures Accrued(GrowthRules(f)) == Total(ReportOf(f).signals, GrowthWeight)
    ensures |ReportOf(f).signals| <= 7
  {
    AccruedFromNotes(GrowthRules(f), GrowthWeight);
    FiredLength(GrowthRules(f));
  }

  /** The subdomain signal carries the number of active subdomains and the first five, and is reported when one is active. */
  lemma GrowthSubdomainSignalIff(f: GrowthFacts, n: nat, shown: seq<string>)
    ensures Subdomains(n, shown) in ReportOf(f).signals <==> f.active != [] && n == |f.active| && shown == Take(f.active, 5)
  {
    if n == |f.active| && shown == Take(f.active, 5) {
      NoteAt(GrowthRules(f), 0, Subdomains(n, shown));
    } else {
      NoteNowhere(GrowthRules(f), Subdomains(n, shown));
    }
  }

  /** The sitemap signal carries the number of `<loc>` entries and is reported when there are more than 50. */
  lemma GrowthSitemapSignalIff(f: GrowthFacts, n: nat)
    ensures LargeSitemap(n) in ReportOf(f).signals <==> n == f.pages && n > 50
  {
    if n == f.pages {
      NoteAt(GrowthRules(f), 4, LargeSitemap(n));
    } else {
      NoteNowhere(GrowthRules(f), LargeSitemap(n));
    }
  }

  /** The social signal carries the number of social-network links and is reported from three on. */
  lemma GrowthSocialSignalIff(f: GrowthFacts, n: nat)
    ensures SocialPresence(n) in ReportOf(f).signals <==> n == f.social && n >= 3
  {
    if n == f.social {
      NoteAt(GrowthRules(f), 5, SocialPresence(n));
    } else {
      NoteNowhere(GrowthRules(f), SocialPresence(n));
    }
  }

  /** The HTTPS, content, hiring and recent-content signals are reported exactly when their check holds. */
  lemma GrowthFlagSignalsIff(f: GrowthFacts)
    ensures SecureTransport in ReportOf(f).signals <==> f.secure
    ensures ContentActivity in ReportOf(f).signals <==> f.content
    ensures HiringActivity in ReportOf(f).signals <==> f.hiring
    ensures RecentContent in ReportOf(f).signals <==> f.recent
  {
    var rules := GrowthRules(f);
    NoteAt(rules, 1, SecureTransport);
    NoteAt(rules, 2, ContentActivity);
    NoteAt(rules, 3, HiringActivity);
    NoteAt(rules, 6, RecentContent);
  }

  /** Level by the raw score: high from 60, moderate from 30, early stage below. */
  lemma GrowthLevels(raw: int)
    ensures Classify(raw, GrowthBands, EarlyStage) == HighGrowth <==> raw >= 60
    ensures Classify(raw, GrowthBands, EarlyStage) == ModerateGrowth <==> 30 <= raw < 60
    ensures Classify(raw, GrowthBands, EarlyStage) == EarlyStage <==> raw < 30
  {
    assert HighGrowth[0] != ModerateGrowth[0] && ModerateGrowth[0] != EarlyStage[0] && HighGrowth[0] != EarlyStage[0];
    assert GrowthBands[0].floor == 60 && GrowthBands[1].floor == 30;
  }

  /** The recommendation follows the level, band for band. */
  lemma GrowthAdviceFollowsLevel(raw: int)
    ensures Classify(raw, AdviceBands, LastAdvice) == "Priority outreach" <==> Classify(raw, GrowthBands, EarlyStage) == HighGrowth
    ensures Classify(raw, AdviceBands, LastAdvice) == "Monitor for changes" <==> Classify(raw, GrowthBands, EarlyStage) == ModerateGrowth
    ensures Classify(raw, AdviceBands, LastAdvice) == LastAdvice <==> Classify(raw, GrowthBands, EarlyStage) == EarlyStage
  {
    RankSameFloors(raw, GrowthBands, AdviceBands);
    GrowthLevels(raw);
    assert AdviceBands[0].floor == 60 && AdviceBands[1].floor == 30;
    assert "Priority outreach"[0] != "Monitor for changes"[0] && "Monitor for changes"[0] != LastAdvice[0];
    assert "Priority outreach"[0] != LastAdvice[0];
  }
}
