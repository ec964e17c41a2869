/**
 * Business intelligence (`/api/business/intelligence`): three sections, each
 * with a status and its own signal list. Funding mentions in a search page add
 * 30, launch mentions on the first press page answering 200 add 20, recently
 * modified sitemap entries add 10, and detected ads add 15. Level uses the
 * thresholds 50 and 25, and one pitch is recommended per active section in the
 * fixed order funding, launches, ads.
 */
module Business {
  import opened Options
  import opened Text
  import opened Lists
  import opened Web
  import opened Scoring

  datatype BusinessSignal =
    | FundingMentions(keywords: nat)
    | FundingAmounts(amounts: seq<string>)
    | PressLaunches(mentions: nat)
    | RecentPages(pages: nat)
    | AdsFound
    | SlowLanding
    | NoTracking

  /** A section of the answer: its status and the signals it collected. */
  datatype Section = Section(status: string, signals: seq<BusinessSignal>)

  datatype BusinessReport = BusinessReport(
    funding: Section, launches: Section, ads: Section, score: int, level: string, opportunities: seq<string>)

  const FundingKeywords: seq<string> := ["raised", "funding", "investment", "series a", "series b", "seed round", "venture capital"]
  const LaunchKeywords: seq<string> := ["launch", "announcement", "new product", "introducing", "released"]
  const PressPaths: seq<string> := ["/press", "/news", "/newsroom", "/blog"]
  const AmountPattern := "\\$[\\d.]+[MBK]"
  /** The letters one of which ends every match of `AmountPattern`. */
  const AmountUnits := "MBK"
  const CurrentYear := "2025"
  const RecentYear := "2024"

  const NotFound := "not_found"
  const Funded := "likely_funded"
  const Active := "active"
  const Detected := "detected"

  const HighActivity := "High Activity - " + "Strong growth signals"
  const ModerateActivity := "Moderate Activity - " + "Some opportunities"
  const LowActivity := "Low Activity - " + "Early stage or " + "limited public presence"
  const BusinessBands: seq<Band<string>> := [Band(50, HighActivity), Band(25, ModerateActivity)]

  const FundingPitch := "Pitch: " + "Web/mobile app development, " + "automation, cloud services"
  const LaunchPitch := "Pitch: " + "App enhancements, maintenance, " + "analytics dashboards"
  const AdsPitch := "Pitch: " + "Landing page optimization, " + "CRO, tracking setup"

  /** The site the domain names: used as given when it starts with `http`, else on HTTPS. */
  function SiteUrl(domain: string): string {
    if StartsWith(domain, "http") then domain else "https://" + domain
  }

  const NewsSearch := "https://www.google.com/search?q="
  const AdLibrary := "https://www.facebook.com/ads/library/?active_status=all&ad_type=all&country=ALL&q="

  function FundingSearch(env: Env, company: string): Request {
    Request(GET, NewsSearch + env.quote(company + " funding raised investment") + "&num=10", 10)
  }

  function AdLibrarySearch(env: Env, company: string): Request {
    Request(GET, AdLibrary + env.quote(company), 10)
  }

  function PressProbes(domain: string): seq<Request> {
    Candidates(GET, SiteUrl(domain), PressPaths, 8)
  }

  /**
   * Funding checks, run only for a company name whose search returned. The
   * amount pattern asks for an upper-case unit but is matched against the
   * lowered text, so `amounts` is empty on every page (see `LoweredHasNoUnit`).
   */
  function FundingRules(env: Env, company: string): seq<Rule<BusinessSignal>> {
    var reply := env.net(FundingSearch(env, company));
    if company == "" || !Fetched(reply) then []
    else
      var text := Lower(env.html(reply.body).text);
      var found := CountIn(text, FundingKeywords);
      var amounts := env.findall(AmountPattern, text);
      [ Rule(found >= 3, 30, Some(FundingMentions(found))),
        Rule(found >= 3 && amounts != [], 0, Some(FundingAmounts(Take(amounts, 3)))) ]
  }

  /** Launch mentions on the first press page answering 200; 0 when none does. */
  function PressMentions(env: Env, domain: string): nat {
    match FirstOk(env.net, PressProbes(domain))
    case Some(k) => CountIn(Lower(env.net(PressProbes(domain)[k]).body), LaunchKeywords)
    case None => 0
  }

  predicate RecentDate(d: string) {
    Contains(d, CurrentYear) || Contains(d, RecentYear)
  }

  /** The `lastmod` entries of a sitemap answering 200 that mention a recent year. */
  function RecentLastmods(env: Env, domain: string): seq<string> {
    var reply := env.net(Request(GET, SiteUrl(domain) + "/sitemap.xml", 8));
    if IsOk(reply) then Filter(env.xml(reply.body, "lastmod"), RecentDate) else []
  }

  /** Launch checks, run only for a domain. */
  function LaunchRules(env: Env, domain: string): seq<Rule<BusinessSignal>> {
    if domain == "" then []
    else
      var mentions := PressMentions(env, domain);
      var recent := RecentLastmods(env, domain);
      [ Rule(mentions >= 2, 20, Some(PressLaunches(mentions))),
        Rule(recent != [], 10, Some(RecentPages(|recent|))) ]
  }

  /**
   * Ad checks, run only for a company name whose ad-library search returned;
   * the landing page is inspected only once ads are detected and a domain is given.
   */
  function AdRules(env: Env, company: string, domain: string, landingTime: real): seq<Rule<BusinessSignal>> {
    var reply := env.net(AdLibrarySearch(env, company));
    if company == "" || !Fetched(reply) then []
    else
      var text := Lower(reply.body);
      var detected := Contains(text, "ad") && Contains(text, Lower(company));
      var landing := env.net(Request(GET, SiteUrl(domain), 10));
      var inspect := detected && domain != "" && Fetched(landing);
      var page := if Fetched(landing) then Lower(landing.body) else "";
      var tracked := Contains(page, "google-analytics") || Contains(page, "gtag") || Contains(page, "facebook.com/tr");
      [ Rule(detected, 15, Some(AdsFound)),
        Rule(inspect && landingTime > 4.0, 0, Some(SlowLanding)),
        Rule(inspect && !tracked, 0, Some(NoTracking)) ]
  }

  /** The first rule of a section decides its status. */
  predicate Leads(rules: seq<Rule<BusinessSignal>>) {
    rules != [] && rules[0].fires
  }

  function SectionOf(rules: seq<Rule<BusinessSignal>>, status: string): Section {
    Section(if Leads(rules) then status else NotFound, Fired(rules))
  }

  /** One pitch per active section, in section order. */
  function Opportunities(funding: Section, launches: Section, ads: Section): seq<string> {
    var r := AddIf([], funding.status == Funded, FundingPitch);
    var r := AddIf(r, launches.status == Active, LaunchPitch);
    AddIf(r, ads.status == Detected, AdsPitch)
  }

  function BusinessReportOf(env: Env, company: string, domain: string, landingTime: real): BusinessReport {
    var f := FundingRules(env, company);
    var l := LaunchRules(env, domain);
    var a := AdRules(env, company, domain, landingTime);
    var score := Accrued(f) + Accrued(l) + Accrued(a);
    var funding, launches, ads := SectionOf(f, Funded), SectionOf(l, Active), SectionOf(a, Detected);
    BusinessReport(funding, launches, ads, score, Classify(score, BusinessBands, LowActivity),
                   Opportunities(funding, launches, ads))
  }

  /** Lowered text holds no upper-case unit letter, so `AmountPattern` never matches it. */
  lemma LoweredHasNoUnit(s: string)
    ensures forall i :: 0 <= i < |Lower(s)| ==> Lower(s)[i] !in AmountUnits
  {
    forall i | 0 <= i < |Lower(s)| ensures Lower(s)[i] !in AmountUnits {
      assert Lower(s)[i] == LowerChar(s[i]);
    }
  }

  method CheckFunding(env: Env, company: string) returns (section: Section, points: int)
    ensures section == SectionOf(FundingRules(env, company), Funded)
    ensures points == Accrued(FundingRules(env, company))
  {
    var rules: seq<Rule<BusinessSignal>> := [];
    if company != "" {
      var reply := env.net(FundingSearch(env, company));
      if Fetched(reply) {
        var text := Lower(env.html(reply.body).text);
        var found := CountIn(text, FundingKeywords);
        var amounts := env.findall(AmountPattern, text);
        rules := [ Rule(found >= 3, 30, Some(FundingMentions(found))),
                   Rule(found >= 3 && amounts != [], 0, Some(FundingAmounts(Take(amounts, 3)))) ];
      }
    }
    assert rules == FundingRules(env, company);
    var signals;
    points, signals := Evaluate(rules);
    section := Section(if Leads(rules) then Funded else NotFound, signals);
  }

  method CheckLaunches(env: Env, domain: string) returns (section: Section, points: int)
    ensures section == SectionOf(LaunchRules(env, domain), Active)
    ensures points == Accrued(LaunchRules(env, domain))
  {
    var rules: seq<Rule<BusinessSignal>> := [];
    if domain != "" {
      var press := PressProbes(domain);
      var hit := ProbeFirst(env.net, press);
      var mentions := 0;
      if hit.Some? {
        mentions := CountIn(Lower(env.net(press[hit.value]).body), LaunchKeywords);
      }
      var sitemap := env.net(Request(GET, SiteUrl(domain) + "/sitemap.xml", 8));
      var recent := if IsOk(sitemap) then Filter(env.xml(sitemap.body, "lastmod"), RecentDate) else [];
      rules := [ Rule(mentions >= 2, 20, Some(PressLaunches(mentions))),
                 Rule(recent != [], 10, Some(RecentPages(|recent|))) ];
    }
    assert rules == LaunchRules(env, domain);
    var signals;
    points, signals := Evaluate(rules);
    section := Section(if Leads(rules) then Active else NotFound, signals);
  }

  method CheckAds(env: Env, company: string, domain: string, landingTime: real) returns (section: Section, points: int)
    ensures section == SectionOf(AdRules(env, company, domain, landingTime), Detected)
    ensures points == Accrued(AdRules(env, company, domain, landingTime))
  {
    var rules: seq<Rule<BusinessSignal>> := [];
    if company != "" {
      var reply := env.net(AdLibrarySearch(env, company));
      if Fetched(reply) {
        var text := Lower(reply.body);
        var detected := Contains(text, "ad") && Contains(text, Lower(company));
        var landing := env.net(Request(GET, SiteUrl(domain), 10));
        var inspect := detected && domain != "" && Fetched(landing);
        var page := if Fetched(landing) then Lower(landing.body) else "";
        var tracked := Contains(page, "google-analytics") || Contains(page, "gtag") || Contains(page, "facebook.com/tr");
        rules := [ Rule(detected, 15, Some(AdsFound)),
                   Rule(inspect && landingTime > 4.0, 0, Some(SlowLanding)),
                   Rule(inspect && !tracked, 0, Some(NoTracking)) ];
      }
    }
    assert rules == AdRules(env, company, domain, landingTime);
    var signals;
    points, signals := Evaluate(rules);
    section := Section(if Leads(rules) then Detected else NotFound, signals);
  }

  method Recommend(funding: Section, launches: Section, ads: Section) returns (opportunities: seq<string>)
    ensures opportunities == Opportunities(funding, launches, ads)
  {
    opportunities := [];
    if funding.status == Funded {
      opportunities := opportunities + [FundingPitch];
    }
    if launches.status == Active {
      opportunities := opportunities + [LaunchPitch];
    }
    if ads.status == Detected {
      opportunities := opportunities + [AdsPitch];
    }
  }

  /**
   * The handler. `landingTime` is the wall-clock time of the landing-page fetch.
   * With neither a company name nor a domain it answers 400.
   */
  method BusinessIntelligence(env: Env, companyName: string, domain: string, landingTime: real)
    returns (out: Outcome<BusinessReport>)
    ensures Strip(companyName) == [] && Strip(domain) == [] ==> out == BadRequest("Company name or domain is required")
    ensures Strip(companyName) != [] || Strip(domain) != [] ==>
      out == Ok(BusinessReportOf(env, Strip(companyName), Strip(domain), landingTime))
  {
    var company, site := Strip(companyName), Strip(domain);
    if company == [] && site == [] {
      return BadRequest("Company name or domain is required");
    }
    var report := Analyse(env, company, site, landingTime);
    out := Ok(report);
  }

  /** The three sections in order, each adding its points to the running score. */
  method Analyse(env: Env, company: string, domain: string, landingTime: real) returns (report: BusinessReport)
    ensures report == BusinessReportOf(env, company, domain, landingTime)
  {
    var score := 0;
    var funding, points := CheckFunding(env, company);
    score := score + points;
    var launches;
    launches, points := CheckLaunches(env, domain);
    score := score + points;
    var ads;
    ads, points := CheckAds(env, company, domain, landingTime);
    score := score + points;
    var level := Classify(score, BusinessBands, LowActivity);
    var opportunities := Recommend(funding, launches, ads);
    report := BusinessReport(funding, launches, ads, score, level, opportunities);
  }

  /** Two-rule sections: the total is the sum of the points of the rules that fired. */
  lemma TwoRules(rules: seq<Rule<BusinessSignal>>)
    requires |rules| == 2
    ensures Accrued(rules) == Gain(rules[0]) + Gain(rules[1])
  {
    assert rules == [rules[0], rules[1]];
    Pair(rules[0], rules[1]);
  }

  lemma ThreeRules(rules: seq<Rule<BusinessSignal>>)
    requires |rules| == 3
    ensures Accrued(rules) == Gain(rules[0]) + Gain(rules[1]) + Gain(rules[2])
  {
    assert rules == [rules[0]] + [rules[1], rules[2]];
    AccruedCons(rules[0], [rules[1], rules[2]]);
    Pair(rules[1], rules[2]);
  }

  /**
   * The score is 30 for likely funding, 20 for active launches, 10 for recent
   * sitemap pages and 15 for detected ads, so it lies in [0, 75].
   */
  lemma BusinessScore(env: Env, company: string, domain: string, landingTime: real)
    ensures var r := BusinessReportOf(env, company, domain, landingTime);
      r.score ==
        (if r.funding.status == Funded then 30 else 0) +
        (if r.launches.status == Active then 20 else 0) +
        (if domain != "" && RecentLastmods(env, domain) != [] then 10 else 0) +
        (if r.ads.status == Detected then 15 else 0) &&
      0 <= r.score <= 75
  {
    FundingPoints(env, company);
    LaunchPoints(env, domain);
    AdPoints(env, company, domain, landingTime);
  }

  /** The funding section scores 30 exactly when it reports likely funding. */
  lemma FundingPoints(env: Env, company: string)
    ensures Accrued(FundingRules(env, company)) == if SectionOf(FundingRules(env, company), Funded).status == Funded then 30 else 0
  {
    var f := FundingRules(env, company);
    if f != [] { TwoRules(f); }
    assert Funded != NotFound;
  }

  /** The launch section scores 20 for active launches and 10 for recent sitemap pages. */
  lemma LaunchPoints(env: Env, domain: string)
    ensures Accrued(LaunchRules(env, domain)) ==
      (if SectionOf(LaunchRules(env, domain), Active).status == Active then 20 else 0) +
      (if domain != "" && RecentLastmods(env, domain) != [] then 10 else 0)
  {
    var l := LaunchRules(env, domain);
    if l != [] { TwoRules(l); }
    assert Active != NotFound;
  }

  /** The ad section scores 15 exactly when it reports ads; the landing-page findings weigh nothing. */
  lemma AdPoints(env: Env, company: string, domain: string, landingTime: real)
    ensures Accrued(AdRules(env, company, domain, landingTime)) ==
      if SectionOf(AdRules(env, company, domain, landingTime), Detected).status == Detected then 15 else 0
  {
    var a := AdRules(env, company, domain, landingTime);
    if a != [] { ThreeRules(a); }
    assert Detected != NotFound;
  }

  /**
   * Funding is likely exactly when a company name was given, its search page
   * came back and mentions at least three funding keywords; ads are detected
   * exactly when the ad-library page came back mentioning both "ad" and the
   * company name. Amounts and landing-page findings need the leading signal.
   */
  lemma SectionStatuses(env: Env, company: string, domain: string, landingTime: real)
    ensures var r := BusinessReportOf(env, company, domain, landingTime);
      var search := env.net(FundingSearch(env, company));
      var ads := env.net(AdLibrarySearch(env, company));
      (r.funding.status == Funded <==>
        company != "" && Fetched(search) && CountIn(Lower(env.html(search.body).text), FundingKeywords) >= 3) &&
      (r.ads.status == Detected <==>
        company != "" && Fetched(ads) && Contains(Lower(ads.body), "ad") && Contains(Lower(ads.body), Lower(company))) &&
      (r.funding.status == NotFound ==> r.funding.signals == []) &&
      (r.ads.status == NotFound ==> r.ads.signals == [])
  {
    FundingStatus(env, company);
    AdStatus(env, company, domain, landingTime);
  }

  /** The funding section is `likely_funded` exactly when three funding keywords were found. */
  lemma FundingStatus(env: Env, company: string)
    ensures var s := SectionOf(FundingRules(env, company), Funded);
      var search := env.net(FundingSearch(env, company));
      s.status == Funded <==>
        company != "" && Fetched(search) && CountIn(Lower(env.html(search.body).text), FundingKeywords) >= 3
    ensures var s := SectionOf(FundingRules(env, company), Funded);
      s.status == NotFound ==> s.signals == []
  {
    var f := FundingRules(env, company);
    assert Funded != NotFound;
    if f != [] {
      assert f == [f[0], f[1]];
      Pair(f[0], f[1]);
    }
  }

  /** The ads section is `detected` exactly when the ad library mentions ads and the company. */
  lemma AdStatus(env: Env, company: string, domain: string, landingTime: real)
    ensures var s := SectionOf(AdRules(env, company, domain, landingTime), Detected);
      var ads := env.net(AdLibrarySearch(env, company));
      s.status == Detected <==>
        company != "" && Fetched(ads) && Contains(Lower(ads.body), "ad") && Contains(Lower(ads.body), Lower(company))
    ensures var s := SectionOf(AdRules(env, company, domain, landingTime), Detected);
      s.status == NotFound ==> s.signals == []
  {
    var a := AdRules(env, company, domain, landingTime);
    assert Detected != NotFound;
    if a != [] {
      assert a == [a[0]] + [a[1], a[2]];
      AccruedCons(a[0], [a[1], a[2]]);
      Pair(a[1], a[2]);
    }
  }

  /**
   * The press probe stops at the first page answering 200: launches are active
   * exactly when that page has two launch keywords, whatever later pages hold.
   */
  lemma LaunchesFromFirstPress(env: Env, company: string, domain: string, landingTime: real)
    ensures var r := BusinessReportOf(env, company, domain, landingTime);
      r.launches.status == Active <==>
        domain != "" &&
        exists k :: 0 <= k < |PressPaths| && FirstOk(env.net, PressProbes(domain)) == Some(k) &&
          CountIn(Lower(env.net(PressProbes(domain)[k]).body), LaunchKeywords) >= 2
  {
    assert Active != NotFound;
  }

  /** A pitch is recommended exactly for each active section, in the fixed order, each once. */
  lemma OpportunitiesSpec(funding: Section, launches: Section, ads: Section)
    ensures var r := Opportunities(funding, launches, ads);
      (FundingPitch in r <==> funding.status == Funded) &&
      (LaunchPitch in r <==> launches.status == Active) &&
      (AdsPitch in r <==> ads.status == Detected) &&
      NoDup(r) &&
      |r| == (if funding.status == Funded then 1 else 0) + (if launches.status == Active then 1 else 0) +
             (if ads.status == Detected then 1 else 0) &&
      (funding.status == Funded ==> r[0] == FundingPitch) &&
      (ads.status == Detected ==> r[|r| - 1] == AdsPitch)
  {
    assert FundingPitch[7] == 'W' && LaunchPitch[7] == 'A' && AdsPitch[7] == 'L';
    assert FundingPitch != LaunchPitch && FundingPitch != AdsPitch && LaunchPitch != AdsPitch;
    var r1 := AddIf([], funding.status == Funded, FundingPitch);
    AddIfSpec([], funding.status == Funded, FundingPitch);
    var r2 := AddIf(r1, launches.status == Active, LaunchPitch);
    AddIfSpec(r1, launches.status == Active, LaunchPitch);
    AddIfSpec(r2, ads.status == Detected, AdsPitch);
  }

  /** Level: high from 50, moderate from 25, low below. */
  lemma BusinessLevels(score: int)
    ensures Classify(score, BusinessBands, LowActivity) == HighActivity <==> score >= 50
    ensures Classify(score, BusinessBands, LowActivity) == ModerateActivity <==> 25 <= score < 50
    ensures Classify(score, BusinessBands, LowActivity) == LowActivity <==> score < 25
  {
    assert HighActivity[0] == 'H' && ModerateActivity[0] == 'M' && LowActivity[0] == 'L';
    assert BusinessBands[0].floor == 50 && BusinessBands[1].floor == 25;
  }
}
