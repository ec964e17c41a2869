/**
 * Job intelligence (`/api/jobs/intelligence`): the first careers path that
 * answers 200 supplies the page (the main page when none does, or when that
 * page is empty); ten role patterns add 10 each, three hiring signals add 15,
 * 5 and 10. The score is never capped and can reach 130. Level uses 40 and 20,
 * the pitch switches at 30.
 */
module Jobs {
  import opened Options
  import opened Text
  import opened Lists
  import opened Urls
  import opened Web
  import opened Scoring

  datatype JobSignal =
    | TechRolesHiring(roles: nat)
    | RecruitmentCampaign
    | RemotePositions
    | GrowthStage

  function JobWeight(s: JobSignal): nat {
    match s
    case TechRolesHiring(n) => 10 * n
    case RecruitmentCampaign => 15
    case RemotePositions => 5
    case GrowthStage => 10
  }

  /** A role and the pattern that detects it in the lower-cased careers page. */
  datatype RolePattern = RolePattern(role: string, pattern: string)

  const TechRolePatterns: seq<RolePattern> := [
    RolePattern("Full Stack Developer", "full[- ]?stack|fullstack"),
    RolePattern("Frontend Developer", "front[- ]?end|react|vue|angular developer"),
    RolePattern("Backend Developer", "back[- ]?end|node\\.?js|python|java developer"),
    RolePattern("Mobile Developer", "mobile|ios|android|react native|flutter developer"),
    RolePattern("DevOps Engineer", "devops|site reliability|sre"),
    RolePattern("UI/UX Designer", "ui/ux|user experience|product designer"),
    RolePattern("QA Engineer", "qa|quality assurance|test engineer"),
    RolePattern("Data Engineer", "data engineer|etl|data pipeline"),
    RolePattern("Machine Learning", "ml engineer|machine learning|ai engineer"),
    RolePattern("Software Engineer", "software engineer")
  ]

  const CareersPaths: seq<string> := ["/careers", "/jobs", "/join-us", "/about/careers", "/company/careers"]
  const JobKeywords: seq<string> := ["position", "opening", "opportunity", "role", "job"]
  const GrowthWords: seq<string> := ["startup", "fast-growing", "scaling"]

  const HighHiring := "High - Active tech hiring"
  const MediumHiring := "Medium - Some hiring activity"
  const LowHiring := "Low - Limited or no hiring"
  const JobBands: seq<Band<string>> := [Band(40, HighHiring), Band(20, MediumHiring)]
  const StaffPitch := "Staff augmentation, " + "dedicated teams, outsourcing"
  const PitchBands: seq<Band<string>> := [Band(30, StaffPitch)]
  const DefaultPitch := "Talent acquisition services"

  datatype JobReport = JobReport(
    jobsFound: bool, totalPositions: nat, techRoles: seq<string>, hiringSignals: seq<JobSignal>,
    score: int, careersUrl: Option<string>, level: string, pitch: string)

  function Matches(env: Env, html: string): RolePattern -> bool {
    (rp: RolePattern) => env.findall(rp.pattern, html) != []
  }

  function RoleOf(rp: RolePattern): string {
    rp.role
  }

  /** The roles of `table` whose pattern is found in the page, in table order. */
  function RolesIn(env: Env, html: string, table: seq<RolePattern>): seq<string> {
    Keys(Filter(table, Matches(env, html)), RoleOf)
  }

  function TechRoles(env: Env, html: string): seq<string> {
    RolesIn(env, html, TechRolePatterns)
  }

  /** The role loop: every role whose pattern is found is recorded and adds 10. */
  method MatchRoles(env: Env, html: string, table: seq<RolePattern>) returns (roles: seq<string>, gained: int)
    ensures roles == RolesIn(env, html, table)
    ensures gained == 10 * |roles|
  {
    var found := Matches(env, html);
    var kept: seq<RolePattern> := [];
    roles, gained := [], 0;
    var i := 0;
    while i < |table|
      invariant 0 <= i <= |table|
      invariant kept == Filter(table[..i], found)
      invariant roles == Keys(kept, RoleOf)
      invariant gained == 10 * |roles|
    {
      var rp := table[i];
      assert table[..i + 1][..i] == table[..i];
      if env.findall(rp.pattern, html) != [] {
        assert (kept + [rp])[..|kept|] == kept;
        kept := kept + [rp];
        roles := roles + [rp.role];
        gained := gained + 10;
      }
      i := i + 1;
    }
    assert table[..i] == table;
  }

  /** `sum(html.count(k) for k in keywords)` */
  function Mentions(html: string, keywords: seq<string>): nat {
    if keywords == [] then 0
    else Mentions(html, keywords[..|keywords| - 1]) + Occurrences(html, keywords[|keywords| - 1])
  }

  /** The estimate of open positions: half the keyword mentions, at most 50. */
  function Positions(html: string): nat {
    Min(Mentions(html, JobKeywords) / 2, 50)
  }

  /** The signal checks after the role loop, led by the roles' own total. */
  function JobRules(env: Env, html: string): seq<Rule<JobSignal>> {
    var roles := TechRoles(env, html);
    [ Rule(roles != [], 10 * |roles|, Some(TechRolesHiring(|roles|))),
      Rule(Contains(html, "we're hiring") || Contains(html, "join our team"), 15, Some(RecruitmentCampaign)),
      Rule(Contains(html, "remote") || Contains(html, "work from home"), 5, Some(RemotePositions)),
      Rule(AnyIn(html, GrowthWords), 10, Some(GrowthStage)) ]
  }

  function CareersProbes(url: string): seq<Request>
    requires HasScheme(url)
  {
    Candidates(GET, BaseUrl(url), CareersPaths, 10)
  }

  /** The careers page URL reported: the first path that answered 200, if any. */
  function CareersUrl(env: Env, url: string): Option<string>
    requires HasScheme(url)
  {
    match FirstOk(env.net, CareersProbes(url))
    case Some(k) => Some(CareersProbes(url)[k].url)
    case None => None
  }

  /**
   * The lower-cased page analysed: the careers page if one answered 200 and
   * is not empty, otherwise the main page whatever its status, otherwise ''.
   */
  function JobPage(env: Env, url: string): string
    requires HasScheme(url)
  {
    var careers := match FirstOk(env.net, CareersProbes(url))
      case Some(k) => Lower(env.net(CareersProbes(url)[k]).body)
      case None => "";
    var main := env.net(Request(GET, url, 10));
    if careers != "" then careers
    else if Fetched(main) then Lower(main.body)
    else ""
  }

  /** The answer when no page could be read. */
  function EmptyJobReport(careersUrl: Option<string>): JobReport {
    JobReport(false, 0, [], [], 0, careersUrl, Classify(0, JobBands, LowHiring), Classify(0, PitchBands, DefaultPitch))
  }

  function JobReportOf(env: Env, url: string): JobReport
    requires HasScheme(url)
  {
    var html := JobPage(env, url);
    if html == "" then EmptyJobReport(CareersUrl(env, url))
    else
      var rules := JobRules(env, html);
      var score := Accrued(rules);
      var roles := TechRoles(env, html);
      JobReport(roles != [], Positions(html), roles, Fired(rules), score, CareersUrl(env, url),
                Classify(score, JobBands, LowHiring), Classify(score, PitchBands, DefaultPitch))
  }

  /**
   * The careers loop and its fallback: GET the careers paths in order and keep
   * the first page answering 200; when there is none, or it is empty, GET the
   * main page; a request that raises leaves the page empty.
   */
  method FetchJobPage(env: Env, url: string) returns (html: string, careersUrl: Option<string>)
    requires HasScheme(url)
    ensures html == JobPage(env, url)
    ensures careersUrl == CareersUrl(env, url)
  {
    var probes := CareersProbes(url);
    var hit := ProbeFirst(env.net, probes);
    html, careersUrl := "", None;
    if hit.Some? {
      html := Lower(env.net(probes[hit.value]).body);
      careersUrl := Some(probes[hit.value].url);
    }
    if html == "" {
      var main := env.net(Request(GET, url, 10));
      if Fetched(main) {
        html := Lower(main.body);
      }
    }
  }

  /** The role loop followed by the three signal checks, on a non-empty page. */
  method AnalyseJobPage(env: Env, html: string) returns (roles: seq<string>, signals: seq<JobSignal>, score: int)
    ensures roles == TechRoles(env, html)
    ensures signals == Fired(JobRules(env, html)) && score == Accrued(JobRules(env, html))
  {
    var gained;
    roles, gained := MatchRoles(env, html, TechRolePatterns);
    var rules := [
      Rule(roles != [], gained, Some(TechRolesHiring(|roles|))),
      Rule(Contains(html, "we're hiring") || Contains(html, "join our team"), 15, Some(RecruitmentCampaign)),
      Rule(Contains(html, "remote") || Contains(html, "work from home"), 5, Some(RemotePositions)),
      Rule(AnyIn(html, GrowthWords), 10, Some(GrowthStage)) ];
    assert rules == JobRules(env, html);
    score, signals := Evaluate(rules);
  }

  /**
   * The handler: a blank `url` is a 400; a host that `urlparse` cannot split
   * is a 500; a page that cannot be fetched gives the empty report.
   */
  method JobIntelligence(env: Env, url: string) returns (out: Outcome<JobReport>)
    ensures Strip(url) == [] ==> out == BadRequest("URL or company name is required")
    ensures Strip(url) != [] && InvalidNetloc(NormalizeUrl(Strip(url))) ==> out == ServerError("Job intelligence failed")
    ensures Strip(url) != [] && !InvalidNetloc(NormalizeUrl(Strip(url))) ==>
      out == Ok(JobReportOf(env, NormalizeUrl(Strip(url))))
  {
    var target := Strip(url);
    if target == [] {
      return BadRequest("URL or company name is required");
    }
    target := NormalizeUrl(target);
    if InvalidNetloc(target) {
      return ServerError("Job intelligence failed");
    }
    var html, careersUrl := FetchJobPage(env, target);
    if html == "" {
      out := Ok(EmptyJobReport(careersUrl));
      return;
    }
    var roles, signals, score := AnalyseJobPage(env, html);
    out := Ok(JobReport(roles != [], Positions(html), roles, signals, score, careersUrl,
                        Classify(score, JobBands, LowHiring), Classify(score, PitchBands, DefaultPitch)));
  }

  /** A role is reported exactly when its pattern is found, in table order, at most ten. */
  lemma TechRolesIff(env: Env, html: string)
    ensures |TechRoles(env, html)| <= 10
    ensures forall rp :: rp in TechRolePatterns ==>
      (rp.role in TechRoles(env, html) <==> env.findall(rp.pattern, html) != [])
  {
    var kept := Filter(TechRolePatterns, Matches(env, html));
    var role := RoleOf;
    forall rp | rp in TechRolePatterns
      ensures rp.role in TechRoles(env, html) <==> env.findall(rp.pattern, html) != []
    {
      FilterIff(TechRolePatterns, Matches(env, html), rp);
      if rp.role in TechRoles(env, html) {
        var i :| 0 <= i < |kept| && Keys(kept, role)[i] == rp.role;
        FilterIff(TechRolePatterns, Matches(env, html), kept[i]);
        RoleNamesDistinct(rp, kept[i]);
      }
      if rp in kept {
        var i :| 0 <= i < |kept| && kept[i] == rp;
        assert Keys(kept, role)[i] == rp.role;
      }
    }
  }

  /** Each role name appears once in the table, so a name identifies its pattern. */
  lemma RoleNamesDistinct(a: RolePattern, b: RolePattern)
    requires a in TechRolePatterns && b in TechRolePatterns && a.role == b.role
    ensures a == b
  {
    var t := TechRolePatterns;
    assert forall i, j :: 0 <= i < j < |t| ==> t[i].role != t[j].role by {
      assert t[0].role[..2] == "Fu" && t[1].role[..2] == "Fr" && t[2].role[..2] == "Ba" && t[3].role[..2] == "Mo";
      assert t[4].role[..2] == "De" && t[5].role[..2] == "UI" && t[6].role[..2] == "QA" && t[7].role[..2] == "Da";
      assert t[8].role[..2] == "Ma" && t[9].role[..2] == "So";
    }
  }

  /** The rules weigh 10 per role plus 30, at most 130 with the ten roles. */
  lemma JobCapacity(env: Env, html: string)
    ensures Capacity(JobRules(env, html)) == 10 * |TechRoles(env, html)| + 30
    ensures Accrued(JobRules(env, html)) <= 130
  {
    var rules := JobRules(env, html);
    var n := |TechRoles(env, html)|;
    assert Weights(rules) == [10 * n, 15, 5, 10];
    CapacityIsSum(rules);
    SumByPartials([10 * n, 15, 5, 10], [0, 10 * n, 10 * n + 15, 10 * n + 20, 10 * n + 30]);
    AccruedWithinCapacity(rules);
    TechRolesIff(env, html);
  }

  /**
   * The score is 10 per role plus the signal weights, hence at most 130, and it
   * is reported uncapped; `jobs_found` holds exactly when some role was found,
   * which is also when the roles signal is reported.
   */
  lemma JobScore(env: Env, url: string)
    requires HasScheme(url)
    ensures JobReportOf(env, url).score == Total(JobReportOf(env, url).hiringSignals, JobWeight)
    ensures 0 <= JobReportOf(env, url).score <= 130
    ensures JobReportOf(env, url).jobsFound <==> JobReportOf(env, url).techRoles != []
    ensures JobReportOf(env, url).jobsFound <==> TechRolesHiring(|JobReportOf(env, url).techRoles|) in JobReportOf(env, url).hiringSignals
    ensures |JobReportOf(env, url).hiringSignals| <= 4
  {
    var html := JobPage(env, url);
    if html != "" {
      JobPageScore(env, html);
    }
  }

  /** On a non-empty page: the score is the signals' total weight, and the roles signal tracks the roles. */
  lemma JobPageScore(env: Env, html: string)
    ensures Accrued(JobRules(env, html)) == Total(Fired(JobRules(env, html)), JobWeight)
    ensures Accrued(JobRules(env, html)) <= 130
    ensures TechRolesHiring(|TechRoles(env, html)|) in Fired(JobRules(env, html)) <==> TechRoles(env, html) != []
    ensures |Fired(JobRules(env, html))| <= 4
  {
    var rules := JobRules(env, html);
    FiredLength(rules);
    JobCapacity(env, html);
    JobRulesWeighed(env, html, rules);
    JobRolesNoted(env, html, rules);
  }

  lemma JobRulesWeighed(env: Env, html: string, rules: seq<Rule<JobSignal>>)
    requires rules == JobRules(env, html)
    ensures Accrued(rules) == Total(Fired(rules), JobWeight)
  {
    assert forall i :: 0 <= i < 4 ==> rules[i].note.Some? && rules[i].weight == JobWeight(rules[i].note.value);
    AccruedFromNotes(rules, JobWeight);
  }

  lemma JobRolesNoted(env: Env, html: string, rules: seq<Rule<JobSignal>>)
    requires rules == JobRules(env, html)
    ensures TechRolesHiring(|TechRoles(env, html)|) in Fired(rules) <==> TechRoles(env, html) != []
  {
    var s := TechRolesHiring(|TechRoles(env, html)|);
    assert rules[0].note == Some(s);
    assert forall j :: 0 < j < 4 ==> !rules[j].note.value.TechRolesHiring?;
    NoteAt(rules, 0, s);
  }

  /** The position estimate is half the keyword mentions, capped at 50. */
  lemma PositionsBounds(html: string)
    ensures 0 <= Positions(html) <= 50
    ensures 2 * Positions(html) <= Mentions(html, JobKeywords)
    ensures Positions(html) == 50 <==> Mentions(html, JobKeywords) >= 100
  {
  }

  /**
   * The careers URL is that of the first careers path answering 200, and is
   * reported exactly when one does.
   */
  lemma CareersUrlFirst(env: Env, url: string)
    requires HasScheme(url)
    ensures CareersUrl(env, url).Some? <==> exists i :: 0 <= i < |CareersPaths| && IsOk(env.net(CareersProbes(url)[i]))
    ensures CareersUrl(env, url).Some? ==>
      exists k :: 0 <= k < |CareersPaths| && CareersUrl(env, url).value == BaseUrl(url) + CareersPaths[k] &&
        IsOk(env.net(CareersProbes(url)[k])) && (forall j :: 0 <= j < k ==> !IsOk(env.net(CareersProbes(url)[j])))
  {
    var hit := FirstOk(env.net, CareersProbes(url));
    if hit.Some? {
      assert CareersUrl(env, url).value == BaseUrl(url) + CareersPaths[hit.value];
    }
  }

  /** Level: high from 40, medium from 20, low below; the outsourcing pitch from 30. */
  lemma JobLevels(score: int)
    ensures Classify(score, JobBands, LowHiring) == HighHiring <==> score >= 40
    ensures Classify(score, JobBands, LowHiring) == MediumHiring <==> 20 <= score < 40
    ensures Classify(score, JobBands, LowHiring) == LowHiring <==> score < 20
    ensures Classify(score, PitchBands, DefaultPitch) == DefaultPitch <==> score < 30
  {
    assert HighHiring[0] != MediumHiring[0] && MediumHiring[0] != LowHiring[0] && HighHiring[0] != LowHiring[0];
    assert JobBands[0].floor == 40 && JobBands[1].floor == 20 && PitchBands[0].floor == 30;
    assert StaffPitch[0] == 'S' && DefaultPitch[0] == 'T';
  }
}
