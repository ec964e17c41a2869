# Lead-generation scraper: a verified model of its analysis endpoints

The system is a small Flask service that sales teams point at a company's
website. Each JSON endpoint fetches one or more pages and turns what it finds
into a report:

- **Site facts.** Contact details, WHOIS data, the technology stack, the sitemap
  and page metadata (`scraper_core.py`).
- **Open-source intelligence.** A Google "dork" search, a GitHub repository
  search and RSS/Atom feed discovery (`scraper_osint.py`).
- **Scored analyses.** Lead score, keyword relevance, growth signals,
  technical health, hiring intelligence, business activity and an aggregated
  company profile (`scraper.py`). Each awards points for the signals it finds,
  classifies the total into tiers and attaches a recommendation.

This project models each endpoint as a Dafny method shaped like the handler.
It returns the report or the error the handler would send:
`BadRequest` for a 400, `ServerError` for a 500, otherwise `Ok`. Each method is
proved equal to a specification function of its inputs. Lemmas state what
the service promises about those functions:

- score bounds and how each score breaks down into its signals;
- each signal present exactly when its condition holds;
- the tier thresholds;
- first-match probing;
- de-duplication and truncation of result lists.

The outside world is a value `Web.Env`, passed to every endpoint. It is made of:

- the HTTP client, a total function from a request (verb, URL, timeout) to a
  response, a timeout or a failure;
- the HTML parser (`Web.Page`: text, links, meta tags, `find` queries);
- the XML `find_all`;
- `re.findall`;
- URL quoting and `urljoin`, which gives no result where it raises.

Module layout:

- `scoring.dfy`: the points-and-signals engine shared by all scored
  analyses. A handler's checks form a sequence of rules (fires, weight, note).
  `Accrued` and `Fired` are the score and signal list, `Capacity` is the most
  the rules can award, and `Rank`/`Classify` pick a tier from
  descending floors.
- `text.dfy`, `lists.dfy`, `urls.dfy`, `web.dfy`, `options.dfy`: strings
  (ASCII lowercasing, `strip` and `split` whitespace, `count`, `in`), list helpers (filter,
  de-duplication by key, dictionary assignment), URL normalisation and the
  environment.
- `lead.dfy`, `keywords.dfy`, `growth.dfy`, `health.dfy`, `jobs.dfy`,
  `business.dfy`, `profile.dfy`: the analyses of `scraper.py`.
- `core.dfy`: the endpoints of `scraper_core.py`.
- `osint.dfy`: the endpoints of `scraper_osint.py`.

## Model

| member | source | states |
|---|---|---|
| Scoring.Evaluate | scraper.py:153-199 | the running `score += w` / `signals.append` loop over a handler's checks ends with the rule catalogue's accrued points and fired notes |
| Scoring.AccruedFromNotes | scraper.py:160-199 | when every check's weight is a function of its note, the score is the sum of the weights of the reported signals |
| Scoring.AccruedWithinCapacity | scraper.py:153-199 | the accrued score never exceeds the sum of all check weights |
| Scoring.RankCapped | scraper.py:201-213 | on a 0–100 scale of floors, classifying `min(100, score)` gives the same tier as classifying the raw score |
| Scoring.RankFloored | scraper.py:656-667 | on a 0–100 scale of floors, classifying `max(0, score)` gives the same tier as classifying the raw score |
| Scoring.RankMonotone | scraper.py:201-207 | a higher score never gets a lower tier |
| Scoring.RankSameFloors | scraper.py:201-213 | two ladders with the same floors (tier and recommendation) pick the same rung |
| Text.Lower | scraper.py:158 | lowercasing keeps the length and maps each character separately |
| Text.CountIn | scraper.py:189 | the number of listed words present is at most the list length and is zero exactly when none occurs |
| Text.OccurrencesPositive | scraper.py:115-116 | `text.count(k) > 0` holds exactly when `k in text` |
| Text.Strip | scraper.py:88 | `strip()` is empty exactly for blank input, otherwise starts and ends with a non-space character and occurs in the input |
| Text.StripSlice | scraper.py:88 | `strip()` is the input with its whitespace prefix and a whitespace suffix cut off |
| Text.StripUnique | scraper.py:88 | any blank text around a string that neither starts nor ends with whitespace is exactly what `strip()` removes |
| Urls.NormalizeUrl | scraper_core.py:36-37 | the result always has a scheme; a URL with `http://`/`https://` is kept, any other gets `https://` prepended |
| Urls.NormalizeIdempotent | scraper_core.py:36-37 | normalising twice is normalising once |
| Urls.WhoisDomain | scraper_core.py:91 | the extracted domain contains no `/` |
| Urls.WhoisBareHost | scraper_core.py:91 | a bare host is its own domain, with or without a scheme prepended |
| Urls.ProfileDomain | scraper.py:427 | the profile domain contains no `/` |
| Urls.ProfileBareHost | scraper.py:427 | a bare host without `www.` is left unchanged |
| Urls.BaseUrl | scraper.py:310-312 | `scheme://netloc` is a prefix of the URL and still has a scheme |
| Urls.NoBracketsSplits | scraper.py:310 | a URL without brackets always has a host part `urlparse` accepts |
| Web.FirstOk | scraper.py:355-363 | the first request answering 200, if any: every earlier one did not, and none means no request did |
| Web.ProbeFirst | scraper.py:355-363 | the probe loop that breaks at the first 200 returns exactly that index |
| Lists.DedupBySpec | scraper_osint.py:92-97 | de-duplication by URL keeps the first result per URL, keeps order, drops no URL, leaves URLs distinct, and its `j`-th element is the first result carrying the `j`-th URL to appear |
| Lists.DedupByPositions | scraper_osint.py:92-97 | one element per distinct key, the `j`-th being the first occurrence of the `j`-th key in order of first appearance |
| Lists.DistinctSpec | scraper_core.py:45 | `list(set(...))` holds every input element exactly once |
| Lists.PutSpec | scraper.py:118-121 | dictionary assignment adds the pair, keeps keys distinct and keeps every entry under another key |
| Lead.ScoreLead | scraper.py:141-217 | blank URL: 400; request raises: 500; otherwise the report of the lead rules on the fetched page |
| Lead.LeadScoreWithinHundred | scraper.py:153-210 | the lead weights total exactly 100, so the score is within 0..100 and the cap never bites |
| Lead.LeadScoreFromSignals | scraper.py:160-199 | the score is the sum of the weights of the listed signals; at most seven signals |
| Lead.LeadFlagSignalsIff | scraper.py:160-199 | hiring, dated content, contact form and premium positioning (at least 2 terms) are listed exactly when detected |
| Lead.LeadCountedSignalsIff | scraper.py:170-192 | social profiles (at least 3), emails (more than 2) and advanced tech (at least 3) are listed with their count exactly when over the threshold |
| Lead.LeadIntentLevels | scraper.py:201-207 | intent is High from 70, Medium from 40, Low below |
| Lead.LeadAdviceFollowsIntent | scraper.py:201-213 | `Priority lead`/`Monitor`/`Nurture` exactly for High/Medium/Low intent |
| Keywords.KeywordAnalysis | scraper.py:84-136 | blank URL: 400; request raises: 500; otherwise the report on the page text, with the six default keywords when none is given |
| Keywords.Scan | scraper.py:114-122 | the keyword loop yields the matched keywords and per-keyword counts of the specification |
| Keywords.MatchedIff | scraper.py:114-122 | a keyword is listed exactly when it was asked for and its lowercase form occurs in the text; request order is kept |
| Keywords.DetailsSpec | scraper.py:111-121 | the details hold each occurring keyword once, with its positive count, and no other keyword |
| Keywords.DetailsDistinct | scraper.py:111-121 | the detail keys are distinct |
| Keywords.DetailsCounts | scraper.py:114-121 | every detail's count is the keyword's positive occurrence count |
| Keywords.DetailsKeys | scraper.py:114-121 | a keyword has a detail exactly when it was asked for and occurs |
| Keywords.DetailsEmpty | scraper.py:114-121 | no occurring keyword leaves the details empty |
| Keywords.RelevanceBounds | scraper.py:124-125 | relevance lies in 0..100 and is 0 exactly when no keyword matched |
| Keywords.WordCountZero | scraper.py:108-109 | `len(text.split())` is 0 exactly for all-whitespace text |
| Keywords.WordCountLast | scraper.py:108-109 | text ending in a non-space character has at least one word |
| Growth.GrowthSignals | scraper.py:298-412 | blank URL: 400; host with unbalanced brackets or main request raises: 500; otherwise the growth report of the normalised URL |
| Growth.ProbeSubdomains | scraper.py:318-332 | the subdomain loop lists the answering subdomains and adds 5 points each |
| Growth.Score | scraper.py:331-408 | the imperative scoring of the growth checks produces the specification's report |
| Growth.ActiveSubdomainsIff | scraper.py:318-329 | a subdomain is listed exactly when it is in the nine-name list and answers 200, in list order |
| Growth.GrowthCapacity | scraper.py:317-393 | the growth checks can award 5 per active subdomain plus 75 |
| Growth.GrowthBound | scraper.py:317-404 | the raw growth score is at most 120 and the reported one lies in 0..100 |
| Growth.GrowthCapKeepsLevel | scraper.py:395-408 | the reported score is `min(100, raw)`; level and advice are the tiers of that capped score, as of the raw one |
| Growth.GrowthScoreFromSignals | scraper.py:331-393 | the raw score is the sum of the weights of the listed signals; at most seven signals |
| Growth.GrowthSubdomainSignalIff | scraper.py:331-332 | the subdomain signal appears exactly when some subdomain answered, with their number and the first five |
| Growth.GrowthSitemapSignalIff | scraper.py:370-380 | the sitemap signal appears exactly for more than 50 `<loc>` entries, with that number |
| Growth.GrowthSocialSignalIff | scraper.py:382-386 | the social signal appears exactly for at least 3 platforms, with that number |
| Growth.GrowthFlagSignalsIff | scraper.py:335-393 | the SSL, content, hiring and recent-content signals appear exactly when detected |
| Growth.GrowthLevels | scraper.py:395-401 | High from 60, Moderate from 30, Early Stage below |
| Growth.GrowthAdviceFollowsLevel | scraper.py:395-408 | each recommendation belongs to exactly one growth level |
| Health.TechHealth | scraper.py:566-675 | blank URL: 400; otherwise the health report of the reply (including timeout and error replies) |
| Health.Inspect | scraper.py:578-654 | the penalty loop yields 100 minus the accrued penalty and files fired findings as issues or warnings |
| Health.OutdatedTechIff | scraper.py:616-633 | each outdated library is listed exactly when its version pattern is found; at most four, no repeats |
| Health.PageRestCapacity | scraper.py:604-647 | the six checks after the load-time bands weigh 65 together |
| Health.PagePenaltyBound | scraper.py:594-647 | a loaded page loses at most 80 points to page checks |
| Health.HealthPenaltyBound | scraper.py:582-654 | the total penalty is at most 105 |
| Health.HealthScoreBounds | scraper.py:656-671 | raw score within -5..100; reported score `max(0, raw)` within 0..100; level and opportunity are the tiers of the reported score |
| Health.HealthFetchFailure | scraper.py:649-654 | a timeout (30) or an error (20) is the only issue besides missing SSL; no warnings |
| Health.FailureFiled | scraper.py:649-654 | the failure finding, with the optional SSL finding, is filed as issues only |
| Health.HealthLoadBands | scraper.py:594-599 | slow load (over 5 s) is an issue, moderate load (over 3 s up to 5 s) a warning, never crossed |
| Health.PenaltySplit | scraper.py:582-654 | the total penalty splits into the cost of the issues plus the cost of the warnings |
| Health.HealthScoreFromFindings | scraper.py:578-654 | 100 minus the raw score is exactly the cost of the reported issues and warnings |
| Health.HealthLevels | scraper.py:656-664 | Excellent from 80, Good from 60, Fair from 40, Poor below |
| Health.HealthOpportunity | scraper.py:671 | high priority below 60, optimisation from 60, well maintained from 80 |
| Jobs.JobIntelligence | scraper.py:680-784 | blank input: 400; host with unbalanced brackets: 500; otherwise the job report of the normalised URL |
| Jobs.FetchJobPage | scraper.py:705-726 | the careers probe or the main page is the page analysed, with the careers URL when found |
| Jobs.MatchRoles | scraper.py:743-746 | the role loop lists the matched roles of the table and adds 10 per role |
| Jobs.AnalyseJobPage | scraper.py:743-768 | roles, hiring signals and score are those of the job rules on the page |
| Jobs.TechRolesIff | scraper.py:730-746 | a role is listed exactly when its pattern matches; at most ten roles |
| Jobs.RoleNamesDistinct | scraper.py:730-741 | no two rows of the role table share a role name |
| Jobs.JobCapacity | scraper.py:743-768 | the job checks can award 10 per role plus 30, at most 130 |
| Jobs.JobScore | scraper.py:743-768 | score in 0..130 equals the weights of the hiring signals; `jobs_found` exactly when roles were matched; at most four signals |
| Jobs.JobPageScore | scraper.py:743-768 | on one page: score from signals, at most 130, role signal exactly when roles match, at most four signals |
| Jobs.JobRulesWeighed | scraper.py:743-768 | the job score is the sum of its signals' weights |
| Jobs.JobRolesNoted | scraper.py:753-755 | the tech-roles signal fires exactly when some role matched |
| Jobs.PositionsBounds | scraper.py:748-751 | estimated positions lie in 0..50, at most half the job-keyword mentions, 50 exactly from 100 mentions |
| Jobs.CareersUrlFirst | scraper.py:709-716 | a careers URL is found exactly when some path answers 200, and it is the first such path |
| Jobs.JobLevels | scraper.py:770-779 | High from 40, Medium from 20, Low below; the default pitch exactly below 30 |
| Business.BusinessIntelligence | scraper.py:789-932 | neither company nor domain: 400; otherwise the business report |
| Business.Analyse | scraper.py:806-927 | the three checks, the level and the opportunities produce the specification's report |
| Business.CheckFunding | scraper.py:806-828 | the funding check yields the funding section and its points |
| Business.LoweredHasNoUnit | scraper.py:813-824 | the lowered search text holds no `M`, `B` or `K`, the letters every amount match ends with |
| Business.CheckLaunches | scraper.py:830-871 | the launch check yields the launch section and its points |
| Business.CheckAds | scraper.py:873-908 | the ad check yields the ad section and its points |
| Business.Recommend | scraper.py:918-927 | the pitches are the specification's opportunities |
| Business.BusinessScore | scraper.py:806-908 | score is 30 for funding + 20 for launches + 10 for recent sitemap pages + 15 for ads, within 0..75 |
| Business.FundingPoints | scraper.py:818-828 | the funding check scores 30 exactly when it reports likely funding |
| Business.LaunchPoints | scraper.py:836-869 | the launch check scores 20 when active plus 10 for recent sitemap dates |
| Business.AdPoints | scraper.py:880-906 | the ad check scores 15 exactly when ads are detected |
| Business.SectionStatuses | scraper.py:806-908 | funding likely exactly with three funding keywords; ads detected exactly when the library mentions ads and the company; no signals otherwise |
| Business.FundingStatus | scraper.py:818-826 | `likely_funded` exactly for a named company whose search page mentions three funding keywords |
| Business.AdStatus | scraper.py:880-906 | `detected` exactly when the ad library mentions `ad` and the company |
| Business.LaunchesFromFirstPress | scraper.py:836-853 | launches are active exactly when the first press page answering 200 has two launch keywords |
| Business.OpportunitiesSpec | scraper.py:918-927 | one pitch per active section, exactly those, in fixed order, no repeats |
| Business.BusinessLevels | scraper.py:910-916 | High from 50, Moderate from 25, Low below |
| Profile.AggregateProfile | scraper.py:417-561 | blank domain: 400; otherwise the profile of the cleaned domain and stripped company name |
| Profile.CollectCompanyLinks | scraper.py:467-471 | the link loop keeps exactly the `/company/` hrefs, in order |
| Profile.CollectRepos | scraper.py:486-491 | the repo loop keeps the first three links |
| Profile.ProbePages | scraper.py:504-519 | the HEAD probe loop yields the first page answering 200 |
| Profile.FetchLinkedIn | scraper.py:461-478 | the LinkedIn step yields the specification's result |
| Profile.FetchGitHub | scraper.py:481-498 | the GitHub step yields the specification's result |
| Profile.DomainEmails | scraper.py:444-445 | the distinct found emails containing the domain are exactly those, each once |
| Profile.SiteEmailsSpec | scraper.py:444-445 | at most five distinct domain emails are kept, all of them when there are at most five |
| Profile.Completeness | scraper.py:543-556 | completeness is a multiple of 20 in 0..100; 100 exactly when all five sources were found, 0 exactly when none |
| Profile.NoCompanyName | scraper.py:430-482 | without a company name: no LinkedIn, GitHub searched by domain, completeness at most 80 |
| Profile.WebsiteEmails | scraper.py:444-453 | at most five website emails |
| Profile.EnrichedBounds | scraper.py:543-546 | at most five emails and three repositories in the summary |
| Profile.ProbedFirst | scraper.py:504-519 | a page is found exactly when some path answers 200, and it is the first such path |
| Core.ScrapeContacts | scraper_core.py:27-77 | blank URL: 400; request raises: 500; otherwise the contacts of the page |
| Core.CollectSocial | scraper_core.py:62-65 | the platform loop yields the specification's social links |
| Core.ShortListSpec | scraper_core.py:45-70 | the contact lists have no repeats, at most the cap, only found values, all of them when few enough |
| Core.SocialDistinct | scraper_core.py:52-65 | social links have distinct platforms, all from the pattern table |
| Core.SocialKeys | scraper_core.py:62-65 | a platform is listed exactly when its pattern matches |
| Core.SocialValues | scraper_core.py:62-65 | a matched platform is paired with its first match |
| Core.SocialPlatformsDistinct | scraper_core.py:53-60 | the platform names of the pattern table are distinct |
| Core.WhoisLookup | scraper_core.py:81-116 | blank domain: 400; resolver raising anything but `gaierror`: 500; otherwise the extracted domain, its address or `Not found`, the WHOIS body when it is JSON |
| Core.DetectTech | scraper_core.py:120-190 | blank URL: 400; request raises: 500; otherwise the technologies found |
| Core.DetectedIff | scraper_core.py:145-177 | in a catalogue with distinct labels, a label is reported exactly when one of its needles occurs |
| Core.DetectedDistinct | scraper_core.py:145-177 | reported labels come from the catalogue and are distinct when its labels are |
| Core.FrameworksCatalog | scraper_core.py:146-153 | the framework tests are the framework catalogue |
| Core.CmsCatalog | scraper_core.py:156-163 | the CMS tests are the CMS catalogue |
| Core.AnalyticsCatalog | scraper_core.py:166-169 | the analytics tests are the analytics catalogue |
| Core.LibrariesCatalog | scraper_core.py:172-177 | the library tests are the library catalogue |
| Core.TechIff | scraper_core.py:145-177 | each category lists a technology exactly when one of its markers occurs, without repeats |
| Core.LabelsDistinct | scraper_core.py:145-177 | every catalogue's labels are distinct |
| Core.FrameworkLabelsDistinct | scraper_core.py:146-153 | the framework labels are distinct |
| Core.CmsLabelsDistinct | scraper_core.py:156-163 | the CMS labels are distinct |
| Core.HostingSpec | scraper_core.py:180-182 | hosting lists the `Server` header unless it is missing or `Unknown`; at most one entry |
| Core.ParseSitemap | scraper_core.py:194-233 | blank URL: 400; host with unbalanced brackets: 500; otherwise the sitemap report of the normalised URL |
| Core.FirstSitemap | scraper_core.py:215-224 | the candidate loop yields the `<loc>` entries of the first sitemap answering 200 |
| Core.SitemapSpec | scraper_core.py:207-229 | URLs are the first 100 locations and the total counts them all; no sitemap gives 0; the first 200 answer is the one read |
| Core.AssignAll | scraper_core.py:276-285 | the tag loop yields the specification's assignment |
| Core.ExtractMetadata | scraper_core.py:237-293 | blank URL: 400; request raises: 500; otherwise title, description, keywords and tags of the page |
| Core.LastValueWins | scraper_core.py:276-279 | each tag name appears once, every named tag appears, and the last value for a name wins |
| Core.AssignedKeys | scraper_core.py:276-279 | assigned tag names are distinct and exactly those of the page |
| Core.AssignedLast | scraper_core.py:276-279 | the last pair for each tag name is kept |
| Osint.GoogleDork | scraper_osint.py:26-113 | blank query: 400; request raises: 500; non-200: no results with the status; otherwise the de-duplicated results |
| Osint.CollectPrimary | scraper_osint.py:65-77 | the block loop yields the primary results |
| Osint.CollectFallback | scraper_osint.py:79-90 | the link loop stops at 15 fallback results, which are the first 15 of all of them |
| Osint.UniqueByUrl | scraper_osint.py:92-97 | the seen-set loop yields the de-duplication by URL |
| Osint.FallbackAppend | scraper_osint.py:79-90 | fallback results of concatenated link lists are concatenated |
| Osint.FallbackPrefix | scraper_osint.py:79-90 | a prefix of the links gives a prefix of the fallback results |
| Osint.PrimarySpec | scraper_osint.py:70-77 | primary results are web URLs other than Google's, and every kept block yields one |
| Osint.FallbackSpec | scraper_osint.py:80-90 | fallback results have non-empty non-Google URLs, every kept link yields one, at most 15 are kept |
| Osint.CollectedSpec | scraper_osint.py:65-90 | primary results when there are any, otherwise the fallback |
| Osint.DorkResults | scraper_osint.py:92-102 | at most 15 unique results, first per URL, in order of first appearance, no URL lost; total counts all unique ones |
| Osint.GitHubOsint | scraper_osint.py:117-158 | blank company: 400; request raises: 500; otherwise the repositories of the first query |
| Osint.CollectRepoLinks | scraper_osint.py:143-149 | the link loop keeps repositories among the first five links |
| Osint.GitHubReportSpec | scraper_osint.py:126-153 | at most five repositories, all on github.com, an insight exactly when there are any, no users |
| Osint.RepoListSpec | scraper_osint.py:143-149 | repository URLs start with `https://github.com/`, no more than the links |
| Osint.GitHubFirstQueryOnly | scraper_osint.py:132-140 | only the first query's reply matters: changing any other reply changes nothing |
| Osint.DiscoverFeeds | scraper_osint.py:162-219 | blank URL: 400; host with unbalanced brackets: 500; otherwise the feeds found by probing and by link tags |
| Osint.ProbeFeeds | scraper_osint.py:183-194 | the probe loop yields the probed feeds |
| Osint.Handled | scraper_osint.py:200-211 | the tags the loop gets through: every one before the count joins, the one at it raises |
| Osint.AddLinkedFeeds | scraper_osint.py:200-211 | the tag loop yields the linked feeds of the tags before the first join that raises |
| Osint.ProbedFeedsSpec | scraper_osint.py:183-194 | a probed path is listed exactly when it answers 200 |
| Osint.LinkedFeedsNoDup | scraper_osint.py:200-209 | adding linked feeds keeps feed URLs distinct |
| Osint.LinkedFeedsKeeps | scraper_osint.py:200-209 | linked feeds only extend the probed list |
| Osint.LinkedFeedsCover | scraper_osint.py:200-209 | every tag with an href whose join succeeds has its joined URL listed |
| Osint.LinkedFeedsLast | scraper_osint.py:200-209 | one more tag keeps what was listed and lists its own URL |
| Osint.LinkedFeedsFrom | scraper_osint.py:200-209 | every feed the tags add is the feed one tag declares, under its joined URL |
| Osint.ProbedFeedsNoDup | scraper_osint.py:178-194 | distinct probe URLs give distinct probed feeds |
| Osint.ProbedFeedUrls | scraper_osint.py:183-192 | every probed feed URL is one of the probe URLs |
| Osint.ProbedFeedsDistinct | scraper_osint.py:178-194 | the candidate paths give distinct probed feeds |
| Osint.FeedReportSpec | scraper_osint.py:177-216 | the feed list has no repeated URL and the total is its length |
| Osint.FeedReportSources | scraper_osint.py:183-211 | each reported feed is a probe answering 200 or the feed of a tag the loop got through, and each such tag with an href is listed |

## Left out

- `app.py` (the Flask app, routes, CORS and the server start) is not part of this model. Each handler is a method taking the request fields as parameters.
- HTTP, timeouts, sockets and headers become `Env.net`, a total function from a request (verb, URL, timeout) to a response, a timeout or a failure. The same request always gets the same reply within one evaluation. `get_headers()` and the user-agent strings are not modelled.
- Regular expressions and BeautifulSoup are not modelled. Their results are `Env.findall`, `Env.html` (a `Page` of extracted texts, links, tags and `find` answers) and `Env.xml`. Pattern matching itself is not verified.
- The wall-clock load times of the health check and the ad landing page are parameters (`loadTime`, `landingTime`). `time.time()` is not modelled.
- Keyword density and its `round(…, 2)` are not computed. Only the counts are kept.
- `list(set(...))` has no defined order in Python. The model uses first-occurrence order. The contracts (`Core.ShortListSpec`, `Profile.SiteEmailsSpec`) state only membership, no repeats and length bounds, which hold for any order. Which five emails survive a truncation of more than five depends on that order.
- `Text.Lower`: only ASCII letters are lowercased. Non-ASCII case mapping is not modelled.
- `urljoin` is the abstract `Env.urljoin`, which gives no result where it raises `ValueError`. Sitemap, careers, press and feed candidates use `scheme://netloc` + path, which is what `urljoin(url, '/path')` gives for an absolute path.
- DNS resolution and the JSON check of the WHOIS reply are parameters of `Core.WhoisLookup` (`resolve`, `isJson`). `resolve` gives an address, `Unresolved` for `socket.gaierror`, or `ResolverError` for any other exception; which names raise what is not modelled.
- `Urls.InvalidNetloc`: of the checks `urlsplit` makes on the host part, only the balance of `[` and `]` is modelled. The validation of a bracketed IPv6 host, the NFKC check of a non-ASCII host and the removal of tabs and line breaks are not.
- Exception messages: a 500 carries only the fixed prefix of the handler's message. `str(e)` is not modelled.
- `Business.FundingRules`: `re.findall` is the abstract `Env.findall`, so the model does not itself conclude that `amounts` is empty. `Business.LoweredHasNoUnit` shows that the lowered text holds none of the unit letters every match of `\$[\d.]+[MBK]` ends with, so the source never reports an amount.
- The wording of signal, issue and warning messages is not reproduced. Signals are datatype values carrying the same counts. Tier, recommendation and pitch labels are kept as the source's strings.
- Growth and job probes that raise count as absent, as in the source's bare `except: pass` blocks.
- `Osint.GitHubReportSpec`: the `users` list is always empty, as in the source, which never fills it.
- `Osint.GoogleDork`: a non-200 search answer is returned as a successful report with no results and the status code. The source also answers HTTP 200 here, with an `error` text that the model does not reproduce.
