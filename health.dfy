/**
 * Technical health (`/api/tech/health`): decretive scoring. The score starts at
 * 100 and every detected problem subtracts a fixed penalty and is filed either
 * as a critical issue or as a warning. The page checks run only when the fetch
 * returned; a timeout and any other failure cost 30 and 20 instead. The level
 * (80/60/40) and the opportunity (80/60) are read off the unclamped score; the
 * reported score is floored at 0.
 */
module Health {
  import opened Options
  import opened Text
  import opened Lists
  import opened Urls
  import opened Web
  import opened Scoring

  datatype HealthFinding =
    | NoSsl
    | SlowLoad
    | ModerateLoad
    | NoViewport
    | EmptyScripts(count: nat)
    | OutdatedFrameworks(names: seq<string>)
    | MissingTitle
    | MissingDescription
    | InsecureRedirect
    | ExtremeTimeout
    | LoadError

  /** Findings filed under `warnings`; every other finding is a critical issue. */
  predicate IsWarning(f: HealthFinding) {
    f.ModerateLoad? || f.EmptyScripts? || f.MissingTitle? || f.MissingDescription?
  }

  predicate IsIssue(f: HealthFinding) {
    !IsWarning(f)
  }

  /** What each finding costs. */
  function Penalty(f: HealthFinding): nat {
    match f
    case NoSsl => 25
    case SlowLoad => 15
    case ModerateLoad => 5
    case NoViewport => 10
    case EmptyScripts(_) => 10
    case OutdatedFrameworks(_) => 20
    case MissingTitle => 5
    case MissingDescription => 5
    case InsecureRedirect => 15
    case ExtremeTimeout => 30
    case LoadError => 20
  }

  const EmptyScriptPattern := "<script[^>]*></script>"
  const OldWordPressPattern := "WordPress [1-4]\\."

  const Excellent := "Excellent - Well maintained"
  const Good := "Good - Minor improvements needed"
  const Fair := "Fair - Several issues detected"
  const Poor := "Poor - Major technical problems"
  const HealthBands: seq<Band<string>> := [Band(80, Excellent), Band(60, Good), Band(40, Fair)]
  const WellMaintained := "Well maintained"
  const Optimization := "Potential optimization services"
  const HighPriority := "High priority for IT services"
  const OpportunityBands: seq<Band<string>> := [Band(80, WellMaintained), Band(60, Optimization)]

  datatype HealthReport = HealthReport(
    score: int, level: string, issues: seq<HealthFinding>, warnings: seq<HealthFinding>, opportunity: string)

  /** Which outdated-framework markers the raw HTML shows. */
  datatype Legacy = Legacy(jquery: bool, bootstrap: bool, angular: bool, wordpress: bool)

  /** jQuery, Bootstrap and AngularJS are matched case-insensitively; WordPress needs its path and an old version string. */
  function LegacyOf(env: Env, html: string): Legacy {
    var low := Lower(html);
    Legacy(
      Contains(low, "jquery/1.") || Contains(low, "jquery-1."),
      Contains(low, "bootstrap/3.") || Contains(low, "bootstrap-3."),
      Contains(low, "angularjs") || Contains(low, "angular.js"),
      Contains(html, "/wp-content/") && env.findall(OldWordPressPattern, html) != [])
  }

  /** The outdated frameworks, appended in check order. */
  const OldJQuery := "jQuery 1.x (outdated)"
  const OldBootstrap := "Bootstrap 3 (outdated)"
  const OldAngular := "AngularJS (legacy)"
  const OldWordPress := "Old WordPress version"

  function OutdatedList(l: Legacy): seq<string> {
    var r := AddIf([], l.jquery, OldJQuery);
    var r := AddIf(r, l.bootstrap, OldBootstrap);
    var r := AddIf(r, l.angular, OldAngular);
    AddIf(r, l.wordpress, OldWordPress)
  }

  function OutdatedTech(env: Env, html: string): seq<string> {
    OutdatedList(LegacyOf(env, html))
  }

  /** Each framework is listed exactly when its marker was seen, at most once. */
  lemma OutdatedTechIff(l: Legacy)
    ensures OldJQuery in OutdatedList(l) <==> l.jquery
    ensures OldBootstrap in OutdatedList(l) <==> l.bootstrap
    ensures OldAngular in OutdatedList(l) <==> l.angular
    ensures OldWordPress in OutdatedList(l) <==> l.wordpress
    ensures |OutdatedList(l)| <= 4 && NoDup(OutdatedList(l))
  {
    var j, b, a, w := OldJQuery, OldBootstrap, OldAngular, OldWordPress;
    assert j[0] == 'j' && b[0] == 'B' && a[0] == 'A' && w[0] == 'O';
    var r1 := AddIf([], l.jquery, j);
    AddIfSpec([], l.jquery, j);
    var r2 := AddIf(r1, l.bootstrap, b);
    AddIfSpec(r1, l.bootstrap, b);
    var r3 := AddIf(r2, l.angular, a);
    AddIfSpec(r2, l.angular, a);
    AddIfSpec(r3, l.wordpress, w);
  }

  /** What the checks read off a page that did load. */
  datatype PageFacts = PageFacts(
    viewport: bool,          // a viewport meta tag is present
    emptyScripts: nat,       // empty `<script>` elements matched
    outdated: seq<string>,   // outdated frameworks recognised
    hasTitle: bool,          // a `<title>` is present
    hasDescription: bool,    // a description meta tag is present
    insecureRedirect: bool)  // the final URL after redirects is plain HTTP

  function PageFactsOf(env: Env, body: string, finalUrl: string): PageFacts {
    var page := env.html(body);
    PageFacts(page.has(MetaNamed("viewport")), |env.findall(EmptyScriptPattern, body)|, OutdatedTech(env, body),
              page.has(Tag("title")), page.has(MetaNamed("description")), StartsWith(finalUrl, "http://"))
  }

  /** How the page fetch ended: loaded (with the time it took), timed out, or raised otherwise. */
  datatype Fetch = Loaded(page: PageFacts, loadTime: real) | TimedOut | Failed

  function FetchOf(env: Env, reply: Reply, loadTime: real): Fetch {
    match reply
    case Reply(_, body, finalUrl, _) => Loaded(PageFactsOf(env, body, finalUrl), loadTime)
    case Timeout => TimedOut
    case Failure => Failed
  }

  /** The checks on a page that did load, in handler order. */
  function PageRules(p: PageFacts, loadTime: real): seq<Rule<HealthFinding>> {
    [ Rule(loadTime > 5.0, 15, Some(SlowLoad)),
      Rule(!(loadTime > 5.0) && loadTime > 3.0, 5, Some(ModerateLoad)),
      Rule(!p.viewport, 10, Some(NoViewport)),
      Rule(p.emptyScripts > 5, 10, Some(EmptyScripts(p.emptyScripts))),
      Rule(p.outdated != [], 20, Some(OutdatedFrameworks(p.outdated))),
      Rule(!p.hasTitle, 5, Some(MissingTitle)),
      Rule(!p.hasDescription, 5, Some(MissingDescription)),
      Rule(p.insecureRedirect, 15, Some(InsecureRedirect)) ]
  }

  /**
   * All penalties: the HTTPS check, then either the page checks or the one
   * penalty of the exception handler that caught the failed fetch.
   */
  function HealthRules(secure: bool, fetch: Fetch): seq<Rule<HealthFinding>> {
    var ssl := Rule(!secure, 25, Some(NoSsl));
    match fetch
    case Loaded(page, loadTime) => [ssl] + PageRules(page, loadTime)
    case TimedOut => [ssl, Rule(true, 30, Some(ExtremeTimeout))]
    case Failed => [ssl, Rule(true, 20, Some(LoadError))]
  }

  /** The unclamped score: 100 minus every penalty incurred. */
  function RawHealth(secure: bool, fetch: Fetch): int {
    100 - Accrued(HealthRules(secure, fetch))
  }

  function ReportOf(secure: bool, fetch: Fetch): HealthReport {
    var rules := HealthRules(secure, fetch);
    var raw := RawHealth(secure, fetch);
    HealthReport(Max(0, raw), Classify(raw, HealthBands, Poor), Filter(Fired(rules), IsIssue),
                 Filter(Fired(rules), IsWarning), Classify(raw, OpportunityBands, HighPriority))
  }

  /** The report for the normalised URL and what its fetch produced. */
  function HealthReportOf(env: Env, url: string, reply: Reply, loadTime: real): HealthReport {
    ReportOf(StartsWith(url, "https://"), FetchOf(env, reply, loadTime))
  }

  /**
   * The decrementing accumulator: start at 100; for each rule that fires subtract
   * its penalty and file its finding as an issue or a warning.
   */
  method Inspect(rules: seq<Rule<HealthFinding>>) returns (score: int, issues: seq<HealthFinding>, warnings: seq<HealthFinding>)
    ensures score == 100 - Accrued(rules)
    ensures issues == Filter(Fired(rules), IsIssue)
    ensures warnings == Filter(Fired(rules), IsWarning)
  {
    score, issues, warnings := 100, [], [];
    var i := 0;
    while i < |rules|
      invariant 0 <= i <= |rules|
      invariant score == 100 - Accrued(rules[..i])
      invariant issues == Filter(Fired(rules[..i]), IsIssue)
      invariant warnings == Filter(Fired(rules[..i]), IsWarning)
    {
      var r := rules[i];
      if r.fires {
        score := score - r.weight;
        if r.note.Some? {
          if IsWarning(r.note.value) {
            warnings := warnings + [r.note.value];
          } else {
            issues := issues + [r.note.value];
          }
        }
      }
      assert rules[..i + 1] == rules[..i] + [r];
      Extend(rules[..i], r);
      FilterSnoc(Fired(rules[..i]), Noted(r), IsIssue);
      FilterSnoc(Fired(rules[..i]), Noted(r), IsWarning);
      i := i + 1;
    }
    assert rules[..i] == rules;
  }

  function HealthRequest(url: string): Request {
    Request(GET, NormalizeUrl(Strip(url)), 30)
  }

  /**
   * The handler. `loadTime` is the wall-clock time the page fetch took, used
   * only when the fetch returned.
   */
  method TechHealth(env: Env, url: string, loadTime: real) returns (out: Outcome<HealthReport>)
    ensures Strip(url) == [] ==> out == BadRequest("URL is required")
    ensures Strip(url) != [] ==>
      out == Ok(HealthReportOf(env, NormalizeUrl(Strip(url)), env.net(HealthRequest(url)), loadTime))
  {
    var target := Strip(url);
    if target == [] {
      return BadRequest("URL is required");
    }
    target := NormalizeUrl(target);
    var response := env.net(Request(GET, target, 30));
    var checks := HealthRules(StartsWith(target, "https://"), FetchOf(env, response, loadTime));
    var score, issues, warnings := Inspect(checks);
    var level := Classify(score, HealthBands, Poor);
    var opportunity := Classify(score, OpportunityBands, HighPriority);
    out := Ok(HealthReport(Max(0, score), level, issues, warnings, opportunity));
  }

  /** The six checks after the load-time bands weigh 65 together. */
  lemma PageRestCapacity(p: PageFacts, loadTime: real)
    ensures Capacity(PageRules(p, loadTime)[2..]) == 65
  {
    var rest := PageRules(p, loadTime)[2..];
    assert Weights(rest) == [10, 10, 20, 5, 5, 15];
    CapacityIsSum(rest);
    SumByPartials([10, 10, 20, 5, 5, 15], [0, 10, 20, 40, 45, 50, 65]);
  }

  /** The penalties of a loaded page add up to at most 80, the load bands being exclusive. */
  lemma PagePenaltyBound(p: PageFacts, loadTime: real)
    ensures Accrued(PageRules(p, loadTime)) <= 80
  {
    var rules := PageRules(p, loadTime);
    var rest := rules[2..];
    assert Accrued(rest) <= 65 by {
      PageRestCapacity(p, loadTime);
      AccruedWithinCapacity(rest);
    }
    var a, b := rules[0], rules[1];
    assert Gain(a) + Gain(b) <= 15;
    assert rules == [a] + ([b] + rest);
    AccruedCons(b, rest);
    AccruedCons(a, [b] + rest);
  }

  /** Every outcome costs at most 105: 25 for plain HTTP plus 80 for the page or 30 for the failure. */
  lemma HealthPenaltyBound(secure: bool, fetch: Fetch)
    ensures Accrued(HealthRules(secure, fetch)) <= 105
  {
    var rules := HealthRules(secure, fetch);
    assert rules == [rules[0]] + rules[1..];
    AccruedCons(rules[0], rules[1..]);
    if fetch.Loaded? {
      PagePenaltyBound(fetch.page, fetch.loadTime);
    } else {
      assert rules[1..] == [rules[1]] + [];
      AccruedCons(rules[1], []);
    }
  }

  /**
   * The raw score lies in [-5, 100], so the reported `max(0, raw)` lies in
   * [0, 100] and carries the same level and opportunity as the raw one.
   */
  lemma HealthScoreBounds(secure: bool, fetch: Fetch)
    ensures -5 <= RawHealth(secure, fetch) <= 100
    ensures ReportOf(secure, fetch).score == Max(0, RawHealth(secure, fetch))
    ensures 0 <= ReportOf(secure, fetch).score <= 100
    ensures ReportOf(secure, fetch).level == Classify(Max(0, RawHealth(secure, fetch)), HealthBands, Poor)
    ensures ReportOf(secure, fetch).opportunity == Classify(Max(0, RawHealth(secure, fetch)), OpportunityBands, HighPriority)
  {
    HealthPenaltyBound(secure, fetch);
    RankFloored(RawHealth(secure, fetch), HealthBands);
    RankFloored(RawHealth(secure, fetch), OpportunityBands);
  }

  /**
   * When the fetch raises, only the HTTPS check and the failure itself are
   * filed: a timeout costs 30, any other error 20, and no warning is raised.
   */
  lemma HealthFetchFailure(secure: bool, fetch: Fetch)
    requires !fetch.Loaded?
    ensures var r := ReportOf(secure, fetch);
      var ssl := if secure then [] else [NoSsl];
      var failure := if fetch.TimedOut? then ExtremeTimeout else LoadError;
      r.issues == ssl + [failure] &&
      r.warnings == [] &&
      RawHealth(secure, fetch) == 100 - (if secure then 0 else 25) - (if fetch.TimedOut? then 30 else 20)
  {
    var rules := HealthRules(secure, fetch);
    var failure := if fetch.TimedOut? then ExtremeTimeout else LoadError;
    var ssl := Rule(!secure, 25, Some(NoSsl));
    var last := Rule(true, Penalty(failure), Some(failure));
    assert rules == [ssl, last];
    Pair(ssl, last);
    var noted := if secure then [] else [NoSsl];
    assert Fired(rules) == noted + [failure];
    FailureFiled(noted, failure);
  }

  /** The failure finding after the optional SSL finding is filed as issues only. */
  lemma FailureFiled(noted: seq<HealthFinding>, failure: HealthFinding)
    requires noted == [] || noted == [NoSsl]
    requires failure == ExtremeTimeout || failure == LoadError
    ensures Filter(noted + [failure], IsIssue) == noted + [failure]
    ensures Filter(noted + [failure], IsWarning) == []
  {
    var s := noted + [failure];
    assert s[..|s| - 1] == noted;
    if noted != [] {
      assert noted[..0] == [];
      assert Filter(noted, IsIssue) == [NoSsl];
      assert Filter(noted, IsWarning) == [];
    }
  }

  /** Slow pages (over 5 s) are an issue, moderately slow ones (over 3 s, up to 5 s) a warning; never both. */
  lemma HealthLoadBands(secure: bool, p: PageFacts, loadTime: real)
    ensures var r := ReportOf(secure, Loaded(p, loadTime));
      (SlowLoad in r.issues <==> loadTime > 5.0) &&
      (ModerateLoad in r.warnings <==> 3.0 < loadTime <= 5.0) &&
      SlowLoad !in r.warnings && ModerateLoad !in r.issues
  {
    var rules := HealthRules(secure, Loaded(p, loadTime));
    var found := Fired(rules);
    NoteAt(rules, 1, SlowLoad);
    NoteAt(rules, 2, ModerateLoad);
    FilterIff(found, IsIssue, SlowLoad);
    FilterIff(found, IsWarning, SlowLoad);
    FilterIff(found, IsIssue, ModerateLoad);
    FilterIff(found, IsWarning, ModerateLoad);
  }

  /** The total penalty is the cost of the filed issues plus the cost of the filed warnings. */
  lemma {:induction false} PenaltySplit(found: seq<HealthFinding>)
    ensures Total(found, Penalty) == Total(Filter(found, IsIssue), Penalty) + Total(Filter(found, IsWarning), Penalty)
  {
    if found != [] {
      var p, f := found[..|found| - 1], found[|found| - 1];
      PenaltySplit(p);
      assert found == p + [f];
      if IsWarning(f) {
        TotalAppend(Filter(p, IsWarning), [f], Penalty);
      } else {
        TotalAppend(Filter(p, IsIssue), [f], Penalty);
      }
      assert [f][..0] == [];
    }
  }

  /** 100 minus the raw score is exactly what the reported issues and warnings cost. */
  lemma HealthScoreFromFindings(secure: bool, fetch: Fetch)
    ensures var r := ReportOf(secure, fetch);
      RawHealth(secure, fetch) == 100 - Total(r.issues, Penalty) - Total(r.warnings, Penalty)
  {
    var rules := HealthRules(secure, fetch);
    assert forall i :: 0 <= i < |rules| ==> rules[i].note.Some? && rules[i].weight == Penalty(rules[i].note.value) by {
      if fetch.Loaded? {
        var page := PageRules(fetch.page, fetch.loadTime);
        assert rules == [rules[0]] + page;
        assert forall i :: 0 <= i < |page| ==> page[i].note.Some? && page[i].weight == Penalty(page[i].note.value);
      }
    }
    AccruedFromNotes(rules, Penalty);
    PenaltySplit(Fired(rules));
  }

  /** Level by the raw score: excellent from 80, good from 60, fair from 40, poor below. */
  lemma HealthLevels(raw: int)
    ensures Classify(raw, HealthBands, Poor) == Excellent <==> raw >= 80
    ensures Classify(raw, HealthBands, Poor) == Good <==> 60 <= raw < 80
    ensures Classify(raw, HealthBands, Poor) == Fair <==> 40 <= raw < 60
    ensures Classify(raw, HealthBands, Poor) == Poor <==> raw < 40
  {
    assert Excellent[0] != Good[0] && Excellent[0] != Fair[0] && Excellent[0] != Poor[0];
    assert Good[0] != Fair[0] && Good[0] != Poor[0] && Fair[0] != Poor[0];
    assert HealthBands[0].floor == 80 && HealthBands[1].floor == 60 && HealthBands[2].floor == 40;
  }

  /** The opportunity: well maintained from 80, optimisation from 60, high priority below 60. */
  lemma HealthOpportunity(raw: int)
    ensures Classify(raw, OpportunityBands, HighPriority) == WellMaintained <==> raw >= 80
    ensures Classify(raw, OpportunityBands, HighPriority) == Optimization <==> 60 <= raw < 80
    ensures Classify(raw, OpportunityBands, HighPriority) == HighPriority <==> raw < 60
  {
    assert WellMaintained[0] != Optimization[0] && WellMaintained[0] != HighPriority[0];
    assert Optimization[0] != HighPriority[0];
    assert OpportunityBands[0].floor == 80 && OpportunityBands[1].floor == 60;
  }
}
