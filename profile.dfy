/**
 * Aggregated company profile (`/api/profile/aggregate`): the website, a
 * LinkedIn search (only for a company name), a GitHub search, and the first
 * careers and press pages answering 200 are collected as five sources; the
 * completeness is 20 for every source found.
 */
module Profile {
  import opened Options
  import opened Text
  import opened Lists
  import opened Urls
  import opened Web

  const EmailPattern := "\\b[A-Za-z0-9._%+-]+@[A-Za-z0-9.-]+\\.[A-Z|a-z]{2,}\\b"
  const LinkedInPattern := "https?://(?:www\\.)?linkedin\\.com/company/[\\w-]+"
  const TwitterPattern := "https?://(?:www\\.)?twitter\\.com/[\\w]+"
  const CareersPaths: seq<string> := ["/careers", "/jobs", "/about/careers", "/company/careers"]
  const PressPaths: seq<string> := ["/press", "/news", "/media", "/newsroom", "/blog"]

  /** The website source: its e-mails and first social links, or a failed fetch. */
  datatype Website = WebsiteOk(emails: seq<string>, linkedin: Option<string>, twitter: Option<string>) | WebsiteFailed

  datatype LinkedIn = LinkedInFound(url: string) | LinkedInNotFound | LinkedInError

  /** The GitHub source: up to three repositories (found when there is one), or an error. */
  datatype GitHub = GitHubRepos(repos: seq<Repo>) | GitHubError

  /** A probed page: the first URL that answered 200, or none. */
  datatype Probed = PageFound(url: string) | PageNotFound

  datatype Enriched = Enriched(
    totalEmails: nat, linkedinFound: bool, githubRepos: nat, hasCareersPage: bool, hasPressPage: bool, completeness: nat)

  datatype CompanyProfile = CompanyProfile(
    company: string, domain: string, website: Website, linkedin: Option<LinkedIn>, github: GitHub,
    careers: Probed, press: Probed, enriched: Enriched)

  /** `[e for e in list(set(found)) if domain in e.lower()][:5]`. */
  function SiteEmails(found: seq<string>, domain: string): seq<string> {
    Take(DomainAddresses(found, domain), 5)
  }

  /** The distinct found addresses that name the domain, before the cut to five. */
  function DomainAddresses(found: seq<string>, domain: string): seq<string> {
    Filter(Distinct(found), (e: string) => Contains(Lower(e), domain))
  }

  function First(s: seq<string>): Option<string> {
    if s == [] then None else Some(s[0])
  }

  function WebsiteOf(env: Env, domain: string): Website {
    var reply := env.net(Request(GET, "https://" + domain, 15));
    if !Fetched(reply) then WebsiteFailed
    else
      var text := Lower(reply.body);
      WebsiteOk(SiteEmails(env.findall(EmailPattern, text), domain),
                First(env.findall(LinkedInPattern, text)), First(env.findall(TwitterPattern, text)))
  }

  function LinkedInSearch(env: Env, company: string): Request {
    Request(GET, "https://www.google.com/search?q=site:linkedin.com/company+" + env.quote(company), 10)
  }

  predicate CompanyPage(href: string) {
    Contains(href, "linkedin.com/company/")
  }

  function LinkedInOf(env: Env, company: string): Option<LinkedIn> {
    var reply := env.net(LinkedInSearch(env, company));
    if company == "" then None
    else if !Fetched(reply) then Some(LinkedInError)
    else
      var links := Filter(env.html(reply.body).hrefs, CompanyPage);
      Some(if links == [] then LinkedInNotFound else LinkedInFound(links[0]))
  }

  function GitHubSearch(env: Env, company: string, domain: string): Request {
    Request(GET, "https://github.com/search?q=" + env.quote(if company != "" then company else domain) + "&type=repositories", 10)
  }

  function Repos(links: seq<Link>): (r: seq<Repo>)
    ensures |r| == |links| && forall i :: 0 <= i < |links| ==> r[i] == RepoOf(links[i])
  {
    seq(|links|, i requires 0 <= i < |links| => RepoOf(links[i]))
  }

  function GitHubOf(env: Env, company: string, domain: string): GitHub {
    var reply := env.net(GitHubSearch(env, company, domain));
    if !Fetched(reply) then GitHubError
    else GitHubRepos(Repos(Take(env.html(reply.body).repoLinks, 3)))
  }

  function ProbeRequests(site: string, paths: seq<string>): seq<Request> {
    Candidates(HEAD, site, paths, 5)
  }

  function ProbedOf(env: Env, site: string, paths: seq<string>): Probed {
    match FirstOk(env.net, ProbeRequests(site, paths))
    case Some(k) => PageFound(ProbeRequests(site, paths)[k].url)
    case None => PageNotFound
  }

  function Indicator(b: bool): nat {
    if b then 1 else 0
  }

  function Emails(w: Website): nat {
    if w.WebsiteOk? then |w.emails| else 0
  }

  function LinkedInFoundIn(l: Option<LinkedIn>): bool {
    l.Some? && l.value.LinkedInFound?
  }

  function RepoCount(g: GitHub): nat {
    if g.GitHubRepos? then |g.repos| else 0
  }

  /** The summary block: counts and flags read off the five sources. */
  function EnrichedOf(website: Website, linkedin: Option<LinkedIn>, github: GitHub, careers: Probed, press: Probed): Enriched {
    var sources := Indicator(website.WebsiteOk?) + Indicator(LinkedInFoundIn(linkedin)) +
      Indicator(RepoCount(github) > 0) + Indicator(careers.PageFound?) + Indicator(press.PageFound?);
    Enriched(Emails(website), LinkedInFoundIn(linkedin), RepoCount(github), careers.PageFound?, press.PageFound?,
             sources * 20)
  }

  function ProfileOf(env: Env, company: string, domain: string): CompanyProfile {
    var site := "https://" + domain;
    var website := WebsiteOf(env, domain);
    var linkedin := LinkedInOf(env, company);
    var github := GitHubOf(env, company, domain);
    var careers := ProbedOf(env, site, CareersPaths);
    var press := ProbedOf(env, site, PressPaths);
    CompanyProfile(if company != "" then company else domain, domain, website, linkedin, github, careers, press,
                   EnrichedOf(website, linkedin, github, careers, press))
  }

  /** `for link in soup.find_all('a', href=True)`: keep the LinkedIn company links. */
  method CollectCompanyLinks(hrefs: seq<string>) returns (links: seq<string>)
    ensures links == Filter(hrefs, CompanyPage)
  {
    links := [];
    var i := 0;
    while i < |hrefs|
      invariant 0 <= i <= |hrefs|
      invariant links == Filter(hrefs[..i], CompanyPage)
    {
      FilterSnoc(hrefs[..i], [hrefs[i]], CompanyPage);
      assert hrefs[..i] + [hrefs[i]] == hrefs[..i + 1];
      if CompanyPage(hrefs[i]) {
        links := links + [hrefs[i]];
      }
      i := i + 1;
    }
    assert hrefs[..i] == hrefs;
  }

  /** `for repo_link in ...[:3]`: one repository per link, in order. */
  method CollectRepos(links: seq<Link>) returns (repos: seq<Repo>)
    ensures repos == Repos(Take(links, 3))
  {
    var shown := Take(links, 3);
    repos := [];
    var i := 0;
    while i < |shown|
      invariant 0 <= i <= |shown|
      invariant |repos| == i && forall j :: 0 <= j < i ==> repos[j] == RepoOf(shown[j])
    {
      repos := repos + [RepoOf(shown[i])];
      i := i + 1;
    }
  }

  method ProbePages(env: Env, site: string, paths: seq<string>) returns (page: Probed)
    ensures page == ProbedOf(env, site, paths)
  {
    var candidates := ProbeRequests(site, paths);
    var hit := ProbeFirst(env.net, candidates);
    page := if hit.Some? then PageFound(candidates[hit.value].url) else PageNotFound;
  }

  method FetchLinkedIn(env: Env, company: string) returns (linkedin: Option<LinkedIn>)
    ensures linkedin == LinkedInOf(env, company)
  {
    linkedin := None;
    if company != "" {
      var response := env.net(LinkedInSearch(env, company));
      if !Fetched(response) {
        linkedin := Some(LinkedInError);
      } else {
        var links := CollectCompanyLinks(env.html(response.body).hrefs);
        linkedin := Some(if links == [] then LinkedInNotFound else LinkedInFound(links[0]));
      }
    }
  }

  method FetchGitHub(env: Env, company: string, domain: string) returns (github: GitHub)
    ensures github == GitHubOf(env, company, domain)
  {
    var response := env.net(GitHubSearch(env, company, domain));
    if !Fetched(response) {
      github := GitHubError;
    } else {
      var repos := CollectRepos(env.html(response.body).repoLinks);
      github := GitHubRepos(repos);
    }
  }

  /** The handler: a blank `domain` is a 400; every source that fails is recorded as such. */
  method AggregateProfile(env: Env, domain: string, companyName: string) returns (out: Outcome<CompanyProfile>)
    ensures Strip(domain) == [] ==> out == BadRequest("Domain is required")
    ensures Strip(domain) != [] ==> out == Ok(ProfileOf(env, Strip(companyName), ProfileDomain(Strip(domain))))
  {
    var host, company := Strip(domain), Strip(companyName);
    if host == [] {
      return BadRequest("Domain is required");
    }
    host := ProfileDomain(host);
    var site := "https://" + host;
    var website := WebsiteOf(env, host);
    var linkedin := FetchLinkedIn(env, company);
    var github := FetchGitHub(env, company, host);
    var careers := ProbePages(env, site, CareersPaths);
    var press := ProbePages(env, site, PressPaths);
    var enriched := EnrichedOf(website, linkedin, github, careers, press);
    out := Ok(CompanyProfile(if company != "" then company else host, host, website, linkedin, github,
                             careers, press, enriched));
  }

  /** The addresses kept before the cut to five: distinct, and exactly the found ones naming the domain. */
  lemma DomainEmails(found: seq<string>, domain: string)
    ensures NoDup(DomainAddresses(found, domain))
    ensures forall e :: e in DomainAddresses(found, domain) <==> e in found && Contains(Lower(e), domain)
  {
    var p := (e: string) => Contains(Lower(e), domain);
    var d := Distinct(found);
    DistinctSpec(found);
    FilterNoDup(d, p);
    forall e ensures e in Filter(d, p) <==> e in d && p(e) {
      FilterIff(d, p, e);
    }
  }

  /**
   * The e-mails are distinct, at most five, each found on the page and
   * naming the domain; every such address is kept when there are at most five.
   */
  lemma SiteEmailsSpec(found: seq<string>, domain: string)
    ensures NoDup(SiteEmails(found, domain)) && |SiteEmails(found, domain)| <= 5
    ensures forall e :: e in SiteEmails(found, domain) ==> e in found && Contains(Lower(e), domain)
    ensures |DomainAddresses(found, domain)| <= 5 ==>
      forall e :: e in found && Contains(Lower(e), domain) ==> e in SiteEmails(found, domain)
  {
    DomainEmails(found, domain);
    var d := DomainAddresses(found, domain);
    var r := Take(d, 5);
    assert r == d[..|r|];
    assert forall i :: 0 <= i < |r| ==> r[i] == d[i];
    if |d| <= 5 {
      assert r == d;
    }
  }

  /** The completeness is 20 per source found, so a multiple of 20 in [0, 100], and 100 exactly when all five are found. */
  lemma Completeness(website: Website, linkedin: Option<LinkedIn>, github: GitHub, careers: Probed, press: Probed)
    ensures var e := EnrichedOf(website, linkedin, github, careers, press);
      e.completeness % 20 == 0 && e.completeness <= 100 &&
      (e.completeness == 100 <==>
        website.WebsiteOk? && e.linkedinFound && e.githubRepos > 0 && e.hasCareersPage && e.hasPressPage) &&
      (e.completeness == 0 <==>
        !website.WebsiteOk? && !e.linkedinFound && e.githubRepos == 0 && !e.hasCareersPage && !e.hasPressPage)
  {
  }

  /**
   * Without a company name there is no LinkedIn source and GitHub is searched
   * by domain, so the completeness stays below 100.
   */
  lemma NoCompanyName(env: Env, domain: string)
    ensures ProfileOf(env, "", domain).linkedin == None
    ensures ProfileOf(env, "", domain).company == domain
    ensures GitHubSearch(env, "", domain).url == "https://github.com/search?q=" + env.quote(domain) + "&type=repositories"
    ensures ProfileOf(env, "", domain).enriched.completeness <= 80
  {
    var p := ProfileOf(env, "", domain);
    Completeness(p.website, p.linkedin, p.github, p.careers, p.press);
  }

  lemma WebsiteEmails(env: Env, domain: string)
    ensures Emails(WebsiteOf(env, domain)) <= 5
  {
    var reply := env.net(Request(GET, "https://" + domain, 15));
    if Fetched(reply) {
      SiteEmailsSpec(env.findall(EmailPattern, Lower(reply.body)), domain);
    }
  }

  /** The summary counts: at most five e-mails and three repositories. */
  lemma EnrichedBounds(env: Env, company: string, domain: string)
    ensures ProfileOf(env, company, domain).enriched.totalEmails <= 5
    ensures ProfileOf(env, company, domain).enriched.githubRepos <= 3
  {
    WebsiteEmails(env, domain);
    assert RepoCount(GitHubOf(env, company, domain)) <= 3;
  }

  /**
   * A probed page is the first candidate path answering 200: its URL is the
   * site followed by that path, and every earlier path did not answer 200.
   */
  lemma ProbedFirst(env: Env, site: string, paths: seq<string>)
    ensures ProbedOf(env, site, paths).PageFound? <==>
      exists i :: 0 <= i < |paths| && IsOk(env.net(Request(HEAD, site + paths[i], 5)))
    ensures ProbedOf(env, site, paths).PageFound? ==>
      exists i :: 0 <= i < |paths| && ProbedOf(env, site, paths).url == site + paths[i] &&
        IsOk(env.net(Request(HEAD, site + paths[i], 5))) &&
        forall j :: 0 <= j < i ==> !IsOk(env.net(Request(HEAD, site + paths[j], 5)))
  {
    var reqs := ProbeRequests(site, paths);
    var hit := FirstOk(env.net, reqs);
    if hit.None? {
      assert forall i :: 0 <= i < |paths| ==> reqs[i] == Request(HEAD, site + paths[i], 5) && !IsOk(env.net(reqs[i]));
    } else {
      var k := hit.value;
      assert reqs[k] == Request(HEAD, site + paths[k], 5);
      assert forall j :: 0 <= j < k ==> reqs[j] == Request(HEAD, site + paths[j], 5);
    }
  }
}
