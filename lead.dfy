/**
 * Lead scoring (`/api/osint/score`): seven page signals, each adding a fixed
 * weight and reporting one signal; the intent level and the recommendation are
 * read off the raw score with the thresholds 70 and 40, and the reported score
 * is that raw score capped at 100.
 */
module Lead {
  import opened Options
  import opened Text
  import opened Urls
  import opened Web
  import opened Scoring

  datatype LeadSignal =
    | ActiveHiring
    | ActiveContent
    | SocialProfiles(count: nat)
    | ContactForm
    | EmailAddresses(count: nat)
    | AdvancedTech(count: nat)
    | PremiumPositioning

  /** What each signal adds to the score. */
  function SignalWeight(s: LeadSignal): nat {
    match s
    case ActiveHiring => 20
    case ActiveContent => 15
    case SocialProfiles(_) => 10
    case ContactForm => 10
    case EmailAddresses(_) => 10
    case AdvancedTech(_) => 15
    case PremiumPositioning => 20
  }

  const HiringWords: seq<string> := ["careers", "jobs", "hiring", "join our team", "open positions"]
  const TechIndicators: seq<string> := ["react", "angular", "vue", "api", "integration", "platform"]
  const PremiumKeywords: seq<string> := ["enterprise", "professional", "premium", "custom", "dedicated"]
  const SocialPattern := "(linkedin|twitter|facebook|instagram)\\.com"
  const EmailPattern := "\\b[A-Za-z0-9._%+-]+@[A-Za-z0-9.-]+\\.[A-Z|a-z]{2,}\\b"

  const HighIntent := "High - Strong buying signals"
  const MediumIntent := "Medium - Some engagement potential"
  const LowIntent := "Low - Early stage"
  const IntentBands: seq<Band<string>> := [Band(70, HighIntent), Band(40, MediumIntent)]
  const AdviceBands: seq<Band<string>> := [Band(70, "Priority lead"), Band(40, "Monitor")]
  const LastAdvice := "Nurture"

  datatype LeadReport = LeadReport(score: int, intent: string, signals: seq<LeadSignal>, recommendation: string)

  /** What the checks read off the fetched body. */
  datatype LeadFacts = LeadFacts(
    hiring: bool,    // a hiring word occurs in the lower-cased body
    dated: bool,     // the page has a `time` tag or a date/time `span`
    social: nat,     // social-network links matched
    contact: bool,   // the page has a form or mentions contact
    emails: nat,     // e-mail addresses matched
    tech: nat,       // technology indicators occurring
    premium: nat)    // premium keywords occurring

  function LeadFactsOf(env: Env, body: string): LeadFacts {
    var page := env.html(body);
    var text := Lower(body);
    LeadFacts(
      AnyIn(text, HiringWords),
      page.has(Tag("time")) || page.has(TagWithClass("span", "date|time")),
      |env.findall(SocialPattern, text)|,
      page.has(Tag("form")) || Contains(text, "contact"),
      |env.findall(EmailPattern, text)|,
      CountIn(text, TechIndicators),
      CountIn(text, PremiumKeywords))
  }

  /** The seven checks in the order the handler runs them. */
  function LeadRules(f: LeadFacts): seq<Rule<LeadSignal>> {
    [ Rule(f.hiring, 20, Some(ActiveHiring)),
      Rule(f.dated, 15, Some(ActiveContent)),
      Rule(f.social >= 3, 10, Some(SocialProfiles(f.social))),
      Rule(f.contact, 10, Some(ContactForm)),
      Rule(f.emails > 2, 10, Some(EmailAddresses(f.emails))),
      Rule(f.tech >= 3, 15, Some(AdvancedTech(f.tech))),
      Rule(f.premium >= 2, 20, Some(PremiumPositioning)) ]
  }

  /** The JSON body of a successful answer. */
  function ReportOf(f: LeadFacts): LeadReport {
    var rules := LeadRules(f);
    var raw := Accrued(rules);
    LeadReport(Min(100, raw), Classify(raw, IntentBands, LowIntent), Fired(rules), Classify(raw, AdviceBands, LastAdvice))
  }

  function LeadReportOf(env: Env, body: string): LeadReport {
    ReportOf(LeadFactsOf(env, body))
  }

  /** The page request the handler makes for the `url` field. */
  function LeadRequest(url: string): Request {
    Request(GET, NormalizeUrl(Strip(url)), 20)
  }

  /**
   * The handler: a blank `url` is a 400; a request that raises is a 500;
   * otherwise every check runs in order on the lower-cased body.
   */
  method ScoreLead(env: Env, url: string) returns (out: Outcome<LeadReport>)
    ensures Strip(url) == [] ==> out == BadRequest("URL is required")
    ensures Strip(url) != [] && !Fetched(env.net(LeadRequest(url))) ==> out == ServerError("Lead scoring failed")
    ensures Strip(url) != [] && Fetched(env.net(LeadRequest(url))) ==>
      out == Ok(LeadReportOf(env, env.net(LeadRequest(url)).body))
  {
    var target := Strip(url);
    if target == [] {
      return BadRequest("URL is required");
    }
    target := NormalizeUrl(target);
    var response := env.net(Request(GET, target, 20));
    if !Fetched(response) {
      return ServerError("Lead scoring failed");
    }
    var score, signals := Evaluate(LeadRules(LeadFactsOf(env, response.body)));
    var intent := Classify(score, IntentBands, LowIntent);
    var advice := Classify(score, AdviceBands, LastAdvice);
    out := Ok(LeadReport(Min(100, score), intent, signals, advice));
  }

  /** The weights add up to exactly 100, so the cap never bites: the reported score is the raw one. */
  lemma LeadScoreWithinHundred(f: LeadFacts)
    ensures Capacity(LeadRules(f)) == 100
    ensures 0 <= ReportOf(f).score == Accrued(LeadRules(f)) <= 100
  {
    var rules := LeadRules(f);
    assert Weights(rules) == [20, 15, 10, 10, 10, 15, 20];
    CapacityIsSum(rules);
    SumByPartials([20, 15, 10, 10, 10, 15, 20], [0, 20, 35, 45, 55, 65, 80, 100]);
    AccruedWithinCapacity(rules);
  }

  /** The score is the total weight of the reported signals, and at most seven are reported. */
  lemma LeadScoreFromSignals(f: LeadFacts)
    ensures Accrued(LeadRules(f)) == Total(ReportOf(f).signals, SignalWeight)
    ensures |ReportOf(f).signals| <= 7
  {
    AccruedFromNotes(LeadRules(f), SignalWeight);
    FiredLength(LeadRules(f));
  }

  /** The signals without a count are reported exactly when their check holds. */
  lemma LeadFlagSignalsIff(f: LeadFacts)
    ensures ActiveHiring in ReportOf(f).signals <==> f.hiring
    ensures ActiveContent in ReportOf(f).signals <==> f.dated
    ensures ContactForm in ReportOf(f).signals <==> f.contact
    ensures PremiumPositioning in ReportOf(f).signals <==> f.premium >= 2
  {
    var rules := LeadRules(f);
    NoteAt(rules, 0, ActiveHiring);
    NoteAt(rules, 1, ActiveContent);
    NoteAt(rules, 3, ContactForm);
    NoteAt(rules, 6, PremiumPositioning);
  }

  /** The signals with a count carry the measured count and are reported exactly when it is high enough. */
  lemma LeadCountedSignalsIff(f: LeadFacts, n: nat)
    ensures SocialProfiles(n) in ReportOf(f).signals <==> n == f.social && n >= 3
    ensures EmailAddresses(n) in ReportOf(f).signals <==> n == f.emails && n > 2
    ensures AdvancedTech(n) in ReportOf(f).signals <==> n == f.tech && n >= 3
  {
    var rules := LeadRules(f);
    if n == f.social { NoteAt(rules, 2, SocialProfiles(n)); } else { NoteNowhere(rules, SocialProfiles(n)); }
    if n == f.emails { NoteAt(rules, 4, EmailAddresses(n)); } else { NoteNowhere(rules, EmailAddresses(n)); }
    if n == f.tech { NoteAt(rules, 5, AdvancedTech(n)); } else { NoteNowhere(rules, AdvancedTech(n)); }
  }

  /** The intent level is read off the raw score: high from 70, medium from 40, low below. */
  lemma LeadIntentLevels(raw: int)
    ensures Classify(raw, IntentBands, LowIntent) == HighIntent <==> raw >= 70
    ensures Classify(raw, IntentBands, LowIntent) == MediumIntent <==> 40 <= raw < 70
    ensures Classify(raw, IntentBands, LowIntent) == LowIntent <==> raw < 40
  {
    assert HighIntent[0] != MediumIntent[0] && LowIntent[0] != MediumIntent[0] && HighIntent[0] != LowIntent[0];
    assert IntentBands[0].floor == 70 && IntentBands[1].floor == 40;
  }

  /** The recommendation follows the intent level, band for band. */
  lemma LeadAdviceFollowsIntent(raw: int)
    ensures Classify(raw, AdviceBands, LastAdvice) == "Priority lead" <==> Classify(raw, IntentBands, LowIntent) == HighIntent
    ensures Classify(raw, AdviceBands, LastAdvice) == "Monitor" <==> Classify(raw, IntentBands, LowIntent) == MediumIntent
    ensures Classify(raw, AdviceBands, LastAdvice) == LastAdvice <==> Classify(raw, IntentBands, LowIntent) == LowIntent
  {
    RankSameFloors(raw, IntentBands, AdviceBands);
    assert IntentBands[1..] == [Band(40, MediumIntent)];
    assert AdviceBands[1..] == [Band(40, "Monitor")];
    assert IntentBands[1..][1..] == [] && AdviceBands[1..][1..] == [];
  }
}
