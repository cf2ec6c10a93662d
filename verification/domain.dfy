/**
 * The agent's vocabulary: its workflow states, the nine plan sections, the
 * records the research collaborators hand back, and the three external
 * services, which the model treats as oracles with no logic of their own.
 */
module Domain {
  import opened Wrappers
  import Text

  /** `ResearchState`: exactly one current value per agent. */
  datatype ResearchState = Idle | GatheringInfo | Researching | Summarizing | GeneratingPlan | Editing | Complete

  /** `ConversationMode`: only the fallback conversation reply depends on it. */
  datatype ConversationMode = Efficient | Chatty | Confused | Normal

  /** The nine keys of an account plan. */
  datatype Section =
    | ExecutiveSummary | CompanyOverview | KeyStakeholders | BusinessChallenges | Opportunities
    | ProposedSolutions | EngagementStrategy | SuccessMetrics | NextSteps
  {
    /** The dictionary key. */
    function Key(): string {
      match this
      case ExecutiveSummary => "executive_summary"
      case CompanyOverview => "company_overview"
      case KeyStakeholders => "key_stakeholders"
      case BusinessChallenges => "business_challenges"
      case Opportunities => "opportunities"
      case ProposedSolutions => "proposed_solutions"
      case EngagementStrategy => "engagement_strategy"
      case SuccessMetrics => "success_metrics"
      case NextSteps => "next_steps"
    }

    /** `key.replace('_', ' ')`, used inside generation instructions; spelled
        out for the nine keys. */
    function Phrase(): string {
      match this
      case ExecutiveSummary => "executive summary"
      case CompanyOverview => "company overview"
      case KeyStakeholders => "key stakeholders"
      case BusinessChallenges => "business challenges"
      case Opportunities => "opportunities"
      case ProposedSolutions => "proposed solutions"
      case EngagementStrategy => "engagement strategy"
      case SuccessMetrics => "success metrics"
      case NextSteps => "next steps"
    }

    /** `key.replace('_', ' ').title()`, used in replies; spelled out for the nine keys. */
    function Title(): string {
      match this
      case ExecutiveSummary => "Executive Summary"
      case CompanyOverview => "Company Overview"
      case KeyStakeholders => "Key Stakeholders"
      case BusinessChallenges => "Business Challenges"
      case Opportunities => "Opportunities"
      case ProposedSolutions => "Proposed Solutions"
      case EngagementStrategy => "Engagement Strategy"
      case SuccessMetrics => "Success Metrics"
      case NextSteps => "Next Steps"
    }
  }

  /** The sections in the order the plan dictionary is built (and so displayed). */
  const PlanSections: seq<Section> := [
    ExecutiveSummary, CompanyOverview, KeyStakeholders, BusinessChallenges, Opportunities,
    ProposedSolutions, EngagementStrategy, SuccessMetrics, NextSteps
  ]

  /** The position of a section in plan order. */
  function PlanIndex(t: Section): (k: nat)
    ensures k < |PlanSections| && PlanSections[k] == t
  {
    match t
    case ExecutiveSummary => 0
    case CompanyOverview => 1
    case KeyStakeholders => 2
    case BusinessChallenges => 3
    case Opportunities => 4
    case ProposedSolutions => 5
    case EngagementStrategy => 6
    case SuccessMetrics => 7
    case NextSteps => 8
  }

  /** Each position holds the section whose position it is. */
  lemma PlanIndexAt(k: nat)
    requires k < |PlanSections|
    ensures PlanIndex(PlanSections[k]) == k
  {
  }

  /** Every section appears in the plan order exactly once. */
  lemma PlanSectionsComplete()
    ensures |PlanSections| == 9
    ensures forall t: Section :: t in PlanSections
    ensures forall i, j :: 0 <= i < j < |PlanSections| ==> PlanSections[i] != PlanSections[j]
  {
    forall t: Section ensures t in PlanSections {
      var k := PlanIndex(t);
    }
  }

  /** A plan dictionary holds either no keys or all nine. */
  predicate FullPlan(sections: map<Section, string>) {
    forall s: Section :: s in sections
  }

  /** One source record of the extraction service: `{url, summary, error}`. */
  datatype Record = Record(url: string, summary: string, error: bool)

  /** A `research_cache` entry: `{'data', 'summary', 'timestamp'}`. */
  datatype ResearchEntry = ResearchEntry(data: seq<Record>, summary: string, timestamp: string)

  /** One extraction call: it overwrites `data/context.json` with the
      records it extracted, returns without writing when the search finds
      no URL, or raises. */
  datatype ExtractOutcome = Extracted(records: seq<Record>) | NoSources | ExtractRaised(message: string)

  /** The two files the collaborators hand their results over in:
      `data/context.json` (records) and `data/context.txt` (the summary).
      `None` when the file is missing or cannot be read. They outlive a
      research run, so a run can read what an earlier run left there. */
  datatype DataFiles = DataFiles(contextJson: Option<seq<Record>>, contextTxt: Option<string>)

  /** One generation call: the text produced, or an exception with its message. */
  datatype GenOutcome = Generated(text: string) | GenRaised(message: string)

  /** The three collaborators. `summarize` is the summary that
      `summarize_context` writes to `data/context.txt` for the non-empty
      records it reads from `data/context.json`, or `None` when it fails
      before writing. */
  datatype Services = Services(
    extract: string -> ExtractOutcome,
    summarize: seq<Record> -> Option<string>,
    generate: (string, string) -> GenOutcome)

  /** A call made to a collaborator, as recorded in the agent's call log. */
  datatype Call = ExtractCall(query: string) | SummarizeCall | GenerateCall(context: string, instruction: string)

  /** The two renderings of `datetime.now()` the agent uses. */
  datatype Clock = Clock(isoTime: string, fileStamp: string)

  /** A `conversation_history` entry: `{"role": ..., "content": ...}`. */
  datatype Turn = Turn(role: string, content: string)
}
