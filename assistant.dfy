/**
 * The scripted chat assistant: an ordered list of keyword rules choosing a
 * canned reply for the lowercased query (persona rules first, then a
 * greeting and a thanks rule, then a default prompt), and the transcript
 * that `handleSend` appends to.
 */
module Assistant {
  import opened Wrappers
  import opened Text
  import opened Statuses

  /** The fields of `companyData` a reply reads; `None` is a missing field. */
  datatype CompanyData = CompanyData(
    compliance: Option<string>,
    emissions: Option<real>,
    yoyChange: Option<real>)

  /** The canned replies, with the values their templates interpolate. */
  datatype Reply =
    | NonCompliantSummary(emissions: real, absYoy: Option<real>, lower: bool)
    | UnderReviewSummary(emissions: real, absYoy: Option<real>, lower: bool)
    | CompliantSummary(emitted: Option<real>, change: Option<real>)
    | ReductionAdvice
    | FilingDeadline
    | ComplianceStatistics
    | EmissionsTrend
    | EnforcementActions
    | EmissionsExplained
    | IndustryRanking
    | RegulatoryFramework
    | Greeting
    | Acknowledgement
    | DefaultPrompt

  /** The one error a reply can raise: `emissions.toLocaleString()` on a missing field. */
  datatype Failure = MissingEmissions

  function Abs(x: real): (y: real)
    ensures y >= 0.0 && (y == x || y == -x)
  {
    if x < 0.0 then -x else x
  }

  // ---------------------------------------------------------------------------
  // Rule selection
  // ---------------------------------------------------------------------------

  /** `companyData?.compliance === c`. */
  predicate HasCompliance(data: Option<CompanyData>, c: string)
  {
    data.Some? && data.value.compliance == Some(c)
  }

  /**
   * The Non-Compliant / Under Review template values: `Math.abs` of a missing
   * change is NaN (`None`) and `undefined < 0` is false.
   */
  function StatusSummary(d: CompanyData, nonCompliant: bool): Result<Reply, Failure>
  {
    if d.emissions.None? then Err(MissingEmissions)
    else
      var absYoy := if d.yoyChange.Some? then Some(Abs(d.yoyChange.value)) else None;
      var lower := d.yoyChange.Some? && d.yoyChange.value < 0.0;
      if nonCompliant then Ok(NonCompliantSummary(d.emissions.value, absYoy, lower))
      else Ok(UnderReviewSummary(d.emissions.value, absYoy, lower))
  }

  /** The summary reply, branching on the compliance status. */
  function Summary(data: Option<CompanyData>): Result<Reply, Failure>
  {
    if HasCompliance(data, NonCompliant) then StatusSummary(data.value, true)
    else if HasCompliance(data, UnderReview) then StatusSummary(data.value, false)
    else
      var emissions := if data.Some? then data.value.emissions else None;
      // `yoyChange || 'trending positively'`: a zero change is falsy too
      var yoy := if data.Some? && data.value.yoyChange.Some? && data.value.yoyChange.value != 0.0
                 then data.value.yoyChange else None;
      Ok(CompliantSummary(emissions, yoy))
  }

  function CompanyRule(q: string, data: Option<CompanyData>): Option<Result<Reply, Failure>>
  {
    if Contains(q, "summarize") || Contains(q, "summary") then Some(Summary(data))
    else if Contains(q, "recommendation") || Contains(q, "improve") || Contains(q, "reduce") then Some(Ok(ReductionAdvice))
    else if Contains(q, "deadline") || Contains(q, "report") || Contains(q, "submit") then Some(Ok(FilingDeadline))
    else None
  }

  function RegulatoryRule(q: string): Option<Reply>
  {
    if Contains(q, "compliance") || Contains(q, "status") then Some(ComplianceStatistics)
    else if Contains(q, "trend") || Contains(q, "pattern") then Some(EmissionsTrend)
    else if Contains(q, "recommend") || Contains(q, "action") then Some(EnforcementActions)
    else None
  }

  function PublicRule(q: string): Option<Reply>
  {
    if Contains(q, "explain") || Contains(q, "what is") then Some(EmissionsExplained)
    else if Contains(q, "industry") || Contains(q, "sector") then Some(IndustryRanking)
    else if Contains(q, "regulation") || Contains(q, "policy") || Contains(q, "law") then Some(RegulatoryFramework)
    else None
  }

  /** The rules of the caller's persona; an unknown persona has none. */
  function PersonaRule(q: string, userType: string, data: Option<CompanyData>): Option<Result<Reply, Failure>>
  {
    if userType == "company" then CompanyRule(q, data)
    else if userType == "regulatory" then
      (match RegulatoryRule(q) case Some(r) => Some(Ok(r)) case None => None)
    else if userType == "public" then
      (match PublicRule(q) case Some(r) => Some(Ok(r)) case None => None)
    else None
  }

  /** The rules every persona falls through to. */
  function UniversalRule(q: string): Reply
  {
    if Contains(q, "hello") || Contains(q, "hi ") then Greeting
    else if Contains(q, "thank") then Acknowledgement
    else DefaultPrompt
  }

  /** `generateResponse(query, userType, companyData)`. */
  function Respond(query: string, userType: string, data: Option<CompanyData>): Result<Reply, Failure>
  {
    var q := Lower(query);
    match PersonaRule(q, userType, data)
    case Some(r) => r
    case None => Ok(UniversalRule(q))
  }

  // ---------------------------------------------------------------------------
  // Reply text
  // ---------------------------------------------------------------------------

  /** `${n}` of a number that may be NaN. */
  function NumberText(n: Option<real>, num: real -> string): string
  {
    if n.Some? then num(n.value) else "NaN"
  }

  function Direction(lower: bool): string
  {
    if lower then "lower" else "higher"
  }

  /** "|yoyChange|% lower" or "|yoyChange|% higher". */
  function ChangePhrase(a: Option<real>, lower: bool, num: real -> string): string
  {
    NumberText(a, num) + "% " + Direction(lower)
  }

  const AcceptableAmount := "an acceptable amount of"
  const TrendingPositively := "trending positively"

  // The fixed parts of the reply templates.
  const StatusIntro := "Based on your recent reports, your facility emitted "
  const FacilityEmitted := "Your facility emitted "
  const TonsWhichIs := " tons of CO₂, which is "
  const ThanLastYear := " than last year. Your current status is "
  const NonCompliantAdvice := ". I recommend implementing the following measures to reduce emissions: 1) Conduct an energy audit to identify inefficiencies, 2) Consider upgrading to more efficient equipment, 3) Implement a continuous monitoring system, and 4) Submit a remediation plan to LDEQ within 30 days."
  const UnderReviewAdvice := ". While we wait for the review to complete, I suggest preparing documentation on any unusual operational circumstances and ensuring all monitoring equipment is properly calibrated."
  const GreatNews := "Great news! Your facility emitted "
  const TonsCompliant := " tons of CO₂, which is compliant with regulations. Your year-over-year change is "
  const MaintainCompliance := "%. To maintain compliance, continue your current practices and consider implementing additional efficiency measures for further reductions."
  const ReductionAdviceText := "Here are some recommendations to reduce your CO₂ emissions:\n\n1. Implement energy efficiency measures across your operations\n2. Consider renewable energy sources where feasible\n3. Upgrade to more efficient equipment during your next replacement cycle\n4. Optimize your production schedule to minimize energy-intensive operations during peak demand\n5. Train staff on energy conservation practices\n6. Implement a continuous monitoring system to identify inefficiencies in real-time"
  const FilingDeadlineText := "Your next quarterly report is due by the 15th of the month following the end of the quarter. Make sure to include all required data points and have your report verified by a certified environmental engineer before submission. Late submissions may result in compliance issues."
  const ComplianceStatisticsText := "Current overall compliance rate is 78%. There are 12 companies under review and 10 non-compliant companies requiring immediate attention. The most common compliance issues this quarter are: 1) Late submissions (42%), 2) Exceeding emissions thresholds (35%), and 3) Incomplete monitoring data (23%)."
  const EmissionsTrendText := "Emissions have decreased by 8.9% year-over-year across all industries. The Chemical sector shows the most significant reduction (12.3%), while the Energy sector shows a slight increase (2.1%). Geographic analysis indicates that companies in the Southeast region have achieved the highest reduction rates."
  const EnforcementActionsText := "Based on current data, I recommend:\n\n1. Issuing compliance notices to the 10 non-compliant companies\n2. Scheduling on-site inspections for the 3 facilities with the highest exceedance rates\n3. Organizing a technical assistance workshop for the Energy sector to address their increasing emissions trend\n4. Reviewing permit conditions for chemical manufacturers to align with their demonstrated reduction capabilities"
  const EmissionsExplainedText := "CO₂ emissions are measured in tons and represent the amount of carbon dioxide released into the atmosphere by industrial activities. Louisiana tracks these emissions to monitor environmental impact and ensure companies comply with regulations designed to limit greenhouse gas emissions. The current average for the state is 11.2 million tons annually, which has decreased by 8.9% compared to last year."
  const IndustryRankingText := "In Louisiana, the Oil & Gas industry is the largest emitter (4,500 kilotons), followed by Chemical (3,800 kilotons), Energy (3,200 kilotons), Manufacturing (2,500 kilotons), and Transportation (1,800 kilotons). The Chemical industry has made the most progress in reducing emissions over the past year."
  const RegulatoryFrameworkText := "Louisiana's emissions are regulated primarily through the Louisiana Department of Environmental Quality (LDEQ) under the Louisiana Environmental Quality Act. Different industries have specific thresholds and requirements. For example, Energy companies must stay under 110 tons CO₂ per year, while Chemical manufacturers have a 75 ton threshold. Companies report quarterly and must implement continuous monitoring systems."
  const GreetingText := "Hello! How can I assist you today with CO₂ emissions information?"
  const AcknowledgementText := "You're welcome! If you have any other questions about emissions data or compliance, feel free to ask."
  const DefaultPromptText := "I'm here to help with questions about CO₂ emissions, compliance, and regulations. Could you please provide more details about what specific information you're looking for?"

  /** The compliant summary's figure: `emissions?.toLocaleString() || 'an acceptable amount of'`. */
  function EmissionsShown(e: Option<real>, locale: real -> string): string
  {
    var formatted := if e.Some? then locale(e.value) else "";
    if formatted != "" then formatted else AcceptableAmount
  }

  /** The compliant summary's change: the number if truthy, else the placeholder. */
  function ChangeShown(y: Option<real>, num: real -> string): string
  {
    if y.Some? then num(y.value) else TrendingPositively
  }

  /**
   * The reply's text. `locale` is `Number.prototype.toLocaleString` and `num`
   * the number-to-string conversion of a template literal.
   */
  function Render(r: Reply, locale: real -> string, num: real -> string): string
  {
    match r
    case NonCompliantSummary(e, a, lower) =>
      StatusIntro + locale(e) + TonsWhichIs + ChangePhrase(a, lower, num)
      + ThanLastYear + NonCompliant + NonCompliantAdvice
    case UnderReviewSummary(e, a, lower) =>
      FacilityEmitted + locale(e) + TonsWhichIs + ChangePhrase(a, lower, num)
      + ThanLastYear + UnderReview + UnderReviewAdvice
    case CompliantSummary(e, y) =>
      GreatNews + EmissionsShown(e, locale) + TonsCompliant + ChangeShown(y, num) + MaintainCompliance
    case ReductionAdvice => ReductionAdviceText
    case FilingDeadline => FilingDeadlineText
    case ComplianceStatistics => ComplianceStatisticsText
    case EmissionsTrend => EmissionsTrendText
    case EnforcementActions => EnforcementActionsText
    case EmissionsExplained => EmissionsExplainedText
    case IndustryRanking => IndustryRankingText
    case RegulatoryFramework => RegulatoryFrameworkText
    case Greeting => GreetingText
    case Acknowledgement => AcknowledgementText
    case DefaultPrompt => DefaultPromptText
  }

  // ---------------------------------------------------------------------------
  // Properties of the selector
  // ---------------------------------------------------------------------------

  /** The query is lowercased before any keyword test, so its case never matters. */
  lemma RespondIgnoresCase(query: string, userType: string, data: Option<CompanyData>)
    ensures Respond(query, userType, data) == Respond(Lower(query), userType, data)
  {
    LowerIdempotent(query);
  }

  /**
   * Once a keyword of the caller's persona matches, "hello", "hi " and
   * "thank" are ignored: the reply is never a universal one.
   */
  lemma PersonaRuleOverridesUniversal(query: string, userType: string, data: Option<CompanyData>)
    requires PersonaRule(Lower(query), userType, data).Some?
    ensures Respond(query, userType, data) != Ok(Greeting)
    ensures Respond(query, userType, data) != Ok(Acknowledgement)
    ensures Respond(query, userType, data) != Ok(DefaultPrompt)
  {
  }

  /** Scenario: "hello report" from a company matches the greeting, yet gets the deadline. */
  lemma HelloReportFromCompany(data: Option<CompanyData>)
    ensures UniversalRule(Lower("hello report")) == Greeting
    ensures Respond("hello report", "company", data) == Ok(FilingDeadline)
  {
    HelloReportLowercase();
    HelloReportRules(data);
  }

  lemma HelloReportRules(data: Option<CompanyData>)
    ensures UniversalRule("hello report") == Greeting
    ensures CompanyRule("hello report", data) == Some(Ok(FilingDeadline))
  {
    var q := "hello report";
    HelloReportKeywords();
    assert Contains(q, "hello") by { assert OccursAt(q, "hello", 0); }
    assert Contains(q, "report") by { assert OccursAt(q, "report", 6); }
  }

  lemma HelloReportLowercase()
    ensures Lower("hello report") == "hello report"
  {
    var q := "hello report";
    assert forall i :: 0 <= i < |q| ==> !('A' <= q[i] <= 'Z');
    LowerKeeps(q);
  }

  /** "hello report" has none of the summary or advice keywords. */
  lemma HelloReportKeywords()
    ensures var q := "hello report";
      && !Contains(q, "summarize") && !Contains(q, "summary")
      && !Contains(q, "recommendation") && !Contains(q, "improve") && !Contains(q, "reduce")
  {
    var q := "hello report";
    HelloReportLacks();
    assert !Contains(q, "summarize") by { if Contains(q, "summarize") { ContainsChars(q, "summarize", 0); } }
    assert !Contains(q, "summary") by { if Contains(q, "summary") { ContainsChars(q, "summary", 0); } }
    assert !Contains(q, "recommendation") by { if Contains(q, "recommendation") { ContainsChars(q, "recommendation", 2); } }
    assert !Contains(q, "improve") by { if Contains(q, "improve") { ContainsChars(q, "improve", 0); } }
    assert !Contains(q, "reduce") by { if Contains(q, "reduce") { ContainsChars(q, "reduce", 3); } }
  }

  /** "hello report" has no 's', 'c', 'i' or 'd'. */
  lemma HelloReportLacks()
    ensures var q := "hello report"; 's' !in q && 'c' !in q && 'i' !in q && 'd' !in q
  {
  }

  /** Within the company rules the summary wins: "summarize my report" never gets the deadline. */
  lemma SummaryBeforeDeadline(query: string, data: Option<CompanyData>)
    requires Contains(Lower(query), "summarize") || Contains(Lower(query), "summary")
    ensures Respond(query, "company", data) == Summary(data)
    ensures Respond(query, "company", data) != Ok(FilingDeadline)
  {
  }

  /** The Non-Compliant summary states the status, |yoyChange|% and "lower" iff the change is negative. */
  lemma NonCompliantSummaryText(query: string, d: CompanyData, locale: real -> string, num: real -> string)
    requires Contains(Lower(query), "summarize") || Contains(Lower(query), "summary")
    requires d.compliance == Some(NonCompliant) && d.emissions.Some? && d.yoyChange.Some?
    ensures var r := Respond(query, "company", Some(d));
      && r.Ok? && r.value.NonCompliantSummary?
      && r.value.emissions == d.emissions.value
      && (r.value.lower <==> d.yoyChange.value < 0.0)
      && r.value.absYoy == Some(Abs(d.yoyChange.value))
      && Contains(Render(r.value, locale, num), locale(d.emissions.value))
      && Contains(Render(r.value, locale, num), NonCompliant)
      && Contains(Render(r.value, locale, num), num(Abs(d.yoyChange.value)) + "% " + Direction(d.yoyChange.value < 0.0))
  {
    SummaryBeforeDeadline(query, Some(d));
    assert Respond(query, "company", Some(d)) == StatusSummary(d, true);
    RenderNonCompliant(d.emissions.value, Some(Abs(d.yoyChange.value)), d.yoyChange.value < 0.0, locale, num);
    RenderNonCompliantFigure(d.emissions.value, Some(Abs(d.yoyChange.value)), d.yoyChange.value < 0.0, locale, num);
  }

  /** The Non-Compliant text carries the status and the "|change|% lower/higher" phrase. */
  lemma RenderNonCompliant(e: real, a: Option<real>, lower: bool, locale: real -> string, num: real -> string)
    ensures Contains(Render(NonCompliantSummary(e, a, lower), locale, num), NonCompliant)
    ensures Contains(Render(NonCompliantSummary(e, a, lower), locale, num), ChangePhrase(a, lower, num))
  {
    var head := StatusIntro + locale(e) + TonsWhichIs;
    var phrase := ChangePhrase(a, lower, num);
    var text := Render(NonCompliantSummary(e, a, lower), locale, num);
    assert text == head + phrase + ThanLastYear + NonCompliant + NonCompliantAdvice;
    ContainsMiddle(head + phrase + ThanLastYear, NonCompliant, NonCompliantAdvice);
    assert text == head + phrase + (ThanLastYear + NonCompliant + NonCompliantAdvice);
    ContainsMiddle(head, phrase, ThanLastYear + NonCompliant + NonCompliantAdvice);
  }

  /** The Non-Compliant text shows the formatted emissions figure. */
  lemma RenderNonCompliantFigure(e: real, a: Option<real>, lower: bool, locale: real -> string, num: real -> string)
    ensures Contains(Render(NonCompliantSummary(e, a, lower), locale, num), locale(e))
  {
    var t0 := StatusIntro + locale(e);
    ContainsMiddle(StatusIntro, locale(e), []);
    assert t0 + [] == t0;
    var t1 := t0 + TonsWhichIs;
    ContainsExtend(t0, locale(e), TonsWhichIs);
    var t2 := t1 + ChangePhrase(a, lower, num);
    ContainsExtend(t1, locale(e), ChangePhrase(a, lower, num));
    var t3 := t2 + ThanLastYear;
    ContainsExtend(t2, locale(e), ThanLastYear);
    var t4 := t3 + NonCompliant;
    ContainsExtend(t3, locale(e), NonCompliant);
    ContainsExtend(t4, locale(e), NonCompliantAdvice);
  }

  /** The Under Review summary states the status, |yoyChange|% and "lower" iff the change is negative. */
  lemma UnderReviewSummaryText(query: string, d: CompanyData, locale: real -> string, num: real -> string)
    requires Contains(Lower(query), "summarize") || Contains(Lower(query), "summary")
    requires d.compliance == Some(UnderReview) && d.emissions.Some? && d.yoyChange.Some?
    ensures var r := Respond(query, "company", Some(d));
      && r.Ok? && r.value.UnderReviewSummary?
      && r.value.emissions == d.emissions.value
      && (r.value.lower <==> d.yoyChange.value < 0.0)
      && r.value.absYoy == Some(Abs(d.yoyChange.value))
      && Contains(Render(r.value, locale, num), locale(d.emissions.value))
      && Contains(Render(r.value, locale, num), UnderReview)
      && Contains(Render(r.value, locale, num), num(Abs(d.yoyChange.value)) + "% " + Direction(d.yoyChange.value < 0.0))
  {
    SummaryBeforeDeadline(query, Some(d));
    assert Respond(query, "company", Some(d)) == StatusSummary(d, false);
    RenderUnderReview(d.emissions.value, Some(Abs(d.yoyChange.value)), d.yoyChange.value < 0.0, locale, num);
    RenderUnderReviewFigure(d.emissions.value, Some(Abs(d.yoyChange.value)), d.yoyChange.value < 0.0, locale, num);
  }

  /** The Under Review text carries the status and the "|change|% lower/higher" phrase. */
  lemma RenderUnderReview(e: real, a: Option<real>, lower: bool, locale: real -> string, num: real -> string)
    ensures Contains(Render(UnderReviewSummary(e, a, lower), locale, num), UnderReview)
    ensures Contains(Render(UnderReviewSummary(e, a, lower), locale, num), ChangePhrase(a, lower, num))
  {
    var head := FacilityEmitted + locale(e) + TonsWhichIs;
    var phrase := ChangePhrase(a, lower, num);
    var text := Render(UnderReviewSummary(e, a, lower), locale, num);
    assert text == head + phrase + ThanLastYear + UnderReview + UnderReviewAdvice;
    ContainsMiddle(head + phrase + ThanLastYear, UnderReview, UnderReviewAdvice);
    assert text == head + phrase + (ThanLastYear + UnderReview + UnderReviewAdvice);
    ContainsMiddle(head, phrase, ThanLastYear + UnderReview + UnderReviewAdvice);
  }

  /** The Under Review text shows the formatted emissions figure. */
  lemma RenderUnderReviewFigure(e: real, a: Option<real>, lower: bool, locale: real -> string, num: real -> string)
    ensures Contains(Render(UnderReviewSummary(e, a, lower), locale, num), locale(e))
  {
    var t0 := FacilityEmitted + locale(e);
    ContainsMiddle(FacilityEmitted, locale(e), []);
    assert t0 + [] == t0;
    var t1 := t0 + TonsWhichIs;
    ContainsExtend(t0, locale(e), TonsWhichIs);
    var t2 := t1 + ChangePhrase(a, lower, num);
    ContainsExtend(t1, locale(e), ChangePhrase(a, lower, num));
    var t3 := t2 + ThanLastYear;
    ContainsExtend(t2, locale(e), ThanLastYear);
    var t4 := t3 + UnderReview;
    ContainsExtend(t3, locale(e), UnderReview);
    ContainsExtend(t4, locale(e), UnderReviewAdvice);
  }

  /** A Non-Compliant or Under Review record without emissions makes the source throw. */
  lemma StatusSummaryNeedsEmissions(query: string, d: CompanyData)
    requires Contains(Lower(query), "summarize") || Contains(Lower(query), "summary")
    requires d.compliance == Some("Non-Compliant") || d.compliance == Some("Under Review")
    ensures Respond(query, "company", Some(d)).Err? <==> d.emissions.None?
  {
  }

  /**
   * Without company data, or with a status other than Non-Compliant and Under
   * Review, the summary never fails; its figure is missing exactly when the
   * emissions are, and its change exactly when the change is missing or zero.
   */
  lemma CompliantSummaryFields(query: string, data: Option<CompanyData>)
    requires Contains(Lower(query), "summarize") || Contains(Lower(query), "summary")
    requires !HasCompliance(data, NonCompliant) && !HasCompliance(data, UnderReview)
    ensures var r := Respond(query, "company", data);
      && r.Ok? && r.value.CompliantSummary?
      && (r.value.emitted.None? <==> data.None? || data.value.emissions.None?)
      && (r.value.change.None? <==> data.None? || data.value.yoyChange.None? || data.value.yoyChange == Some(0.0))
      && (r.value.emitted.Some? ==> r.value.emitted == data.value.emissions)
      && (r.value.change.Some? ==> r.value.change == data.value.yoyChange)
  {
    SummaryBeforeDeadline(query, data);
  }

  /** The compliant text shows the placeholders in place of missing values. */
  lemma RenderCompliant(e: Option<real>, y: Option<real>, locale: real -> string, num: real -> string)
    ensures e.None? ==> Contains(Render(CompliantSummary(e, y), locale, num), AcceptableAmount)
    ensures y.None? ==> Contains(Render(CompliantSummary(e, y), locale, num), TrendingPositively)
    ensures e.Some? && locale(e.value) != "" ==> Contains(Render(CompliantSummary(e, y), locale, num), locale(e.value))
    ensures y.Some? ==> Contains(Render(CompliantSummary(e, y), locale, num), num(y.value))
  {
    var text := Render(CompliantSummary(e, y), locale, num);
    var shown := EmissionsShown(e, locale);
    var change := ChangeShown(y, num);
    assert text == GreatNews + shown + TonsCompliant + change + MaintainCompliance;
    ContainsMiddle(GreatNews + shown + TonsCompliant, change, MaintainCompliance);
    assert text == GreatNews + shown + (TonsCompliant + change + MaintainCompliance);
    ContainsMiddle(GreatNews, shown, TonsCompliant + change + MaintainCompliance);
  }

  /**
   * When no persona rule matches, "hello" or "hi " gets the greeting, even if
   * the query also says "thank": the greeting rule is checked first.
   */
  lemma GreetingBeforeThanks(query: string, userType: string, data: Option<CompanyData>)
    requires PersonaRule(Lower(query), userType, data).None?
    requires Contains(Lower(query), "hello") || Contains(Lower(query), "hi ")
    ensures Respond(query, userType, data) == Ok(Greeting)
  {
  }

  /** Scenario: "hi there" from the regulatory persona gets the greeting through "hi ". */
  lemma HiThereFromRegulator()
    ensures Respond("hi there", "regulatory", None) == Ok(Greeting)
  {
    LowerKeeps("hi there");
    HiThereRules();
    GreetingBeforeThanks("hi there", "regulatory", None);
  }

  /** "hi there" matches no regulatory keyword, but does contain "hi ". */
  lemma HiThereRules()
    ensures RegulatoryRule("hi there") == None
    ensures Contains("hi there", "hi ")
  {
    var q := "hi there";
    HiThereLacks();
    assert !Contains(q, "compliance") by { if Contains(q, "compliance") { ContainsChars(q, "compliance", 2); } }
    assert !Contains(q, "status") by { if Contains(q, "status") { ContainsChars(q, "status", 0); } }
    assert !Contains(q, "trend") by { if Contains(q, "trend") { ContainsChars(q, "trend", 3); } }
    assert !Contains(q, "pattern") by { if Contains(q, "pattern") { ContainsChars(q, "pattern", 0); } }
    assert !Contains(q, "recommend") by { if Contains(q, "recommend") { ContainsChars(q, "recommend", 2); } }
    assert !Contains(q, "action") by { if Contains(q, "action") { ContainsChars(q, "action", 0); } }
    assert OccursAt(q, "hi ", 0);
  }

  /** "hi there" has no 'm', 's', 'n', 'p' or 'a'. */
  lemma HiThereLacks()
    ensures var q := "hi there"; 'm' !in q && 's' !in q && 'n' !in q && 'p' !in q && 'a' !in q
  {
  }

  /** A bare "hi" lacks the trailing space of "hi " and gets the default prompt. */
  lemma BareHiIsDefault(userType: string, data: Option<CompanyData>)
    ensures Respond("hi", userType, data) == Ok(DefaultPrompt)
  {
    LowerLength("hi");
  }

  /** Any persona, known or not, that matches no rule gets the default prompt. */
  lemma UnmatchedIsDefault(query: string, userType: string, data: Option<CompanyData>)
    requires PersonaRule(Lower(query), userType, data).None?
    requires !Contains(Lower(query), "hello") && !Contains(Lower(query), "hi ") && !Contains(Lower(query), "thank")
    ensures Respond(query, userType, data) == Ok(DefaultPrompt)
  {
  }

  /** An unknown persona has no rules of its own. */
  lemma UnknownPersonaUsesUniversalRules(query: string, userType: string, data: Option<CompanyData>)
    requires userType != "company" && userType != "regulatory" && userType != "public"
    ensures Respond(query, userType, data) == Ok(UniversalRule(Lower(query)))
  {
  }

  /** A string whose characters are all lowercase or non-letters is its own lowercase. */
  lemma {:induction false} LowerKeeps(s: string)
    requires forall i :: 0 <= i < |s| ==> !('A' <= s[i] <= 'Z')
    ensures Lower(s) == s
  {
    if s != [] {
      LowerKeeps(s[1..]);
    }
  }

  /** Every character of `sub` occurs in a string that contains it. */
  lemma ContainsChars(s: string, sub: string, k: int)
    requires Contains(s, sub) && 0 <= k < |sub|
    ensures sub[k] in s
  {
    var i :| 0 <= i <= |s| - |sub| && OccursAt(s, sub, i);
    assert s[i..i + |sub|] == sub;
    assert s[i + k] == sub[k];
  }

  /** Scenario: "hello" from the public persona gets the universal greeting. */
  lemma HelloFromPublic()
    ensures Respond("hello", "public", None) == Ok(Greeting)
  {
    LowerKeeps("hello");
    var q := "hello";
    if Contains(q, "law") {
      ContainsChars(q, "law", 1);
      assert false;
    }
    assert OccursAt(q, "hello", 0);
  }

  /** Scenario: gibberish to the regulatory persona gets the default prompt. */
  lemma GibberishFromRegulator()
    ensures Respond("asdkjASD", "regulatory", None) == Ok(DefaultPrompt)
  {
    var q := Lower("asdkjASD");
    GibberishLacks();
    assert !Contains(q, "compliance") by { if Contains(q, "compliance") { ContainsChars(q, "compliance", 0); } }
    assert !Contains(q, "status") by { if Contains(q, "status") { ContainsChars(q, "status", 1); } }
    assert !Contains(q, "trend") by { if Contains(q, "trend") { ContainsChars(q, "trend", 0); } }
    assert !Contains(q, "pattern") by { if Contains(q, "pattern") { ContainsChars(q, "pattern", 2); } }
    assert !Contains(q, "recommend") by { if Contains(q, "recommend") { ContainsChars(q, "recommend", 0); } }
    assert !Contains(q, "action") by { if Contains(q, "action") { ContainsChars(q, "action", 1); } }
    assert !Contains(q, "hello") by { if Contains(q, "hello") { ContainsChars(q, "hello", 0); } }
    assert !Contains(q, "hi ") by { if Contains(q, "hi ") { ContainsChars(q, "hi ", 0); } }
    assert !Contains(q, "thank") by { if Contains(q, "thank") { ContainsChars(q, "thank", 0); } }
  }

  /** "asdkjASD" lowercased has no 'c', 't', 'r' or 'h'. */
  lemma GibberishLacks()
    ensures var q := Lower("asdkjASD");
      'c' !in q && 't' !in q && 'r' !in q && 'h' !in q
  {
    LowerOmits("asdkjASD", 't');
    LowerOmits("asdkjASD", 'c');
    LowerOmits("asdkjASD", 'r');
    LowerOmits("asdkjASD", 'h');
  }

  /** Scenario: a Non-Compliant company asking for a summary hears its status and change. */
  lemma NonCompliantScenario(locale: real -> string, num: real -> string)
    ensures var r := Respond("Can you summarize my report?", "company",
                             Some(CompanyData(Some("Non-Compliant"), Some(12000.0), Some(5.0))));
      && r.Ok?
      && Contains(Render(r.value, locale, num), locale(12000.0))
      && Contains(Render(r.value, locale, num), NonCompliant)
      && Contains(Render(r.value, locale, num), ChangePhrase(Some(5.0), false, num))
  {
    SummarizeQuery();
    NonCompliantSummaryText("Can you summarize my report?",
      CompanyData(Some("Non-Compliant"), Some(12000.0), Some(5.0)), locale, num);
  }

  lemma SummarizeQuery()
    ensures Contains(Lower("Can you summarize my report?"), "summarize")
  {
    var query := "Can you summarize my report?";
    assert query[8..17] == "summarize";
    assert OccursAt(query, "summarize", 8);
    LowerContains(query, "summarize");
  }

  /** A keyword without capitals found in the raw query is found in the lowercased one. */
  lemma LowerContains(s: string, sub: string)
    requires Contains(s, sub)
    requires forall i :: 0 <= i < |sub| ==> !('A' <= sub[i] <= 'Z')
    ensures Contains(Lower(s), sub)
  {
    var i :| 0 <= i <= |s| - |sub| && OccursAt(s, sub, i);
    LowerLength(s);
    forall k | 0 <= k < |sub|
      ensures Lower(s)[i + k] == sub[k]
    {
      LowerAt(s, i + k);
      assert s[i..i + |sub|][k] == sub[k];
    }
    assert Lower(s)[i..i + |sub|] == sub;
    assert OccursAt(Lower(s), sub, i);
  }

  // ---------------------------------------------------------------------------
  // The transcript
  // ---------------------------------------------------------------------------

  datatype Role = UserRole | AssistantRole

  /** A turn; `None` content is the `undefined` greeting of an unknown persona. */
  datatype Message = Message(role: Role, content: Option<string>)

  /** What a pending response timer captured when it was scheduled. */
  datatype Request = Request(query: string, userType: string, data: Option<CompanyData>)

  /** The `initialMessages` table, looked up by persona. */
  function InitialGreeting(userType: string): (g: Option<string>)
    ensures g.Some? <==> userType == "company" || userType == "regulatory" || userType == "public"
  {
    if userType == "company" then Some(CompanyGreeting)
    else if userType == "regulatory" then Some(RegulatoryGreeting)
    else if userType == "public" then Some(PublicGreeting)
    else None
  }

  const CompanyGreeting := "Hello! I'm your CO₂ Emissions Assistant. I can help summarize your reports, provide compliance recommendations, or answer questions about emissions regulations. How can I help you today?"
  const RegulatoryGreeting := "Welcome to the Regulatory AI Assistant. I can help analyze compliance patterns, identify companies requiring attention, or provide insights on emissions data. What information do you need?"
  const PublicGreeting := "Welcome to the Louisiana CO₂ Tracker. I can explain emissions data, provide information about industry compliance, or answer questions about environmental regulations. What would you like to know?"

  /** A whitespace-only input: `!input.trim()`. */
  predicate IsBlank(s: string)
  {
    Trim(s) == []
  }

  /** The chat widget's state: its props, the transcript, the input box and the loading flag. */
  class Chat {
    var userType: string
    var companyData: Option<CompanyData>
    var messages: seq<Message>
    var input: string
    var isLoading: bool
    /** Response timers scheduled and not yet fired, oldest first. */
    var pending: seq<Request>
    const locale: real -> string
    const num: real -> string

    /** Mounting runs the greeting effect once. */
    constructor (userType: string, companyData: Option<CompanyData>, locale: real -> string, num: real -> string)
      ensures this.userType == userType && this.companyData == companyData
      ensures this.locale == locale && this.num == num
      ensures messages == [Message(AssistantRole, InitialGreeting(userType))]
      ensures input == "" && !isLoading && pending == []
    {
      this.userType := userType;
      this.companyData := companyData;
      this.locale := locale;
      this.num := num;
      messages := [Message(AssistantRole, InitialGreeting(userType))];
      input := "";
      isLoading := false;
      pending := [];
    }

    /** New props; the greeting effect re-runs only when the persona changed. */
    method SetProps(newUserType: string, newCompanyData: Option<CompanyData>)
      modifies this
      ensures userType == newUserType && companyData == newCompanyData
      ensures newUserType != old(userType) ==> messages == [Message(AssistantRole, InitialGreeting(newUserType))]
      ensures newUserType == old(userType) ==> messages == old(messages)
      ensures input == old(input) && isLoading == old(isLoading) && pending == old(pending)
    {
      if newUserType != userType {
        messages := [Message(AssistantRole, InitialGreeting(newUserType))];
      }
      userType := newUserType;
      companyData := newCompanyData;
    }

    /** The textarea's `onChange`. */
    method SetInput(text: string)
      modifies this
      ensures input == text
      ensures userType == old(userType) && companyData == old(companyData)
      ensures messages == old(messages) && isLoading == old(isLoading) && pending == old(pending)
    {
      input := text;
    }

    /**
     * `handleSend` up to the timer: a blank input changes nothing; otherwise
     * the untrimmed input becomes a user turn, the box is cleared, loading is
     * set and a response is scheduled.
     */
    method Send()
      modifies this
      ensures userType == old(userType) && companyData == old(companyData)
      ensures IsBlank(old(input)) ==>
        messages == old(messages) && input == old(input) && isLoading == old(isLoading) && pending == old(pending)
      ensures !IsBlank(old(input)) ==>
        && messages == old(messages) + [Message(UserRole, Some(old(input)))]
        && input == ""
        && isLoading
        && pending == old(pending) + [Request(old(input), userType, companyData)]
    {
      if IsBlank(input) {
        return;
      }
      messages := messages + [Message(UserRole, Some(input))];
      pending := pending + [Request(input, userType, companyData)];
      input := "";
      isLoading := true;
    }

    /**
     * The oldest timer fires: its reply becomes one assistant turn and loading
     * is cleared. A reply that throws leaves the transcript and the flag as
     * they were.
     */
    method Deliver()
      requires pending != []
      modifies this
      ensures pending == old(pending)[1..]
      ensures userType == old(userType) && companyData == old(companyData) && input == old(input)
      ensures var req := old(pending)[0];
        var reply := Respond(req.query, req.userType, req.data);
        && (reply.Ok? ==>
              messages == old(messages) + [Message(AssistantRole, Some(Render(reply.value, locale, num)))]
              && !isLoading)
        && (reply.Err? ==> messages == old(messages) && isLoading == old(isLoading))
    {
      var req := pending[0];
      pending := pending[1..];
      var reply := Respond(req.query, req.userType, req.data);
      if reply.Ok? {
        messages := messages + [Message(AssistantRole, Some(Render(reply.value, locale, num)))];
        isLoading := false;
      }
    }
  }
}
