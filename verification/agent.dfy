/**
 * `CompanyResearchAgent`: the conversational state machine. Its fields are
 * updated in place by every turn; the plan dictionary is a shared object,
 * so the current plan and the cached plan of the same company are one and
 * the same after a fresh research run, and edits to one are edits to the
 * other.
 */
module Agent {
  import opened Wrappers
  import opened Text
  import opened Domain
  import opened Naming
  import opened Intent
  import opened Research
  import opened Replies
  import opened Editing

  /** A plan dictionary: empty, or holding all nine sections. Every plan the
      agent ever holds, current or cached, has this shape. */
  type PlanMap = m: map<Section, string> | m == map[] || FullPlan(m) witness map[]

  /** An account-plan dictionary, shared by reference between the agent's
      current plan and its plan cache. */
  class Plan {
    var sections: PlanMap

    constructor (sections: PlanMap)
      ensures this.sections == sections
    {
      this.sections := sections;
    }
  }

  // --------------------------------------------------- replies of a research turn

  /** The reply that ends plan generation. */
  function GeneratedReply(company: string, stamp: string, summary: string): string {
    "Account plan generated and saved to " + PlanFileName(company, stamp) + "\n\n" + summary
  }

  const ExistingData: string := "I have existing research data for "
  const LoadingPlan: string := "Loading the existing account plan.\n\n"
  const CachedPlanOptions: string :=
    "\n\nYou can:\n- Ask me to edit any section of the plan\n- Request a full view of the plan\n" +
    "- Ask for a fresh research update\n"
  const PlanFromCache: string := "Generating a new account plan based on existing research...\n"
  const SearchingSources: string :=
    "I'll search for information about this company and gather data from multiple sources...\n"

  /** Reply when both the research and the plan of a company are cached. */
  function CachedPlanReply(company: string, summary: string): string {
    ExistingData + company + ". " + LoadingPlan + summary + CachedPlanOptions
  }

  /** Reply when only the research of a company is cached. */
  function CachedResearchReply(company: string, generated: string): string {
    ExistingData + company + ". " + PlanFromCache + "\n" + generated
  }

  function FreshStart(company: string): string {
    "Starting fresh research on " + company + "...\n" + SearchingSources
  }

  /** Reply to a fresh research run that completed. */
  function FreshReply(company: string, generated: string): string {
    FreshStart(company) + "\n" + UpdateText("research complete") + "\n" + generated
  }

  /** Reply to a fresh research run stopped by an exception. */
  function ResearchFailedReply(company: string, message: string): string {
    FreshStart(company) + "\nError during research: " + message
  }

  /** The `clarify` template, asking for the company name. */
  const AskCompanyName: string := ClarifyText("the company name")

  /** What a turn answers, before it is rendered as text. */
  datatype Reply =
    | AskCompany
    | PlanReloaded(company: string, plan: map<Section, string>)
    | PlanGenerated(company: string, stamp: string, plan: map<Section, string>)
    | FromCachedResearch(company: string, generated: Reply)
    | FromFreshResearch(company: string, generated: Reply)
    | ResearchFailed(company: string, message: string)
    | SectionShown(section: Section, content: string)
    | SectionMenu(plan: map<Section, string>)
    | SectionUpdated(section: Section)
    | SectionRegenerated(section: Section, focus: string, content: string)
    | RegenerationFailed(message: string)
    | SectionEnhanced(section: Section, content: string)
    | EnhancementFailed(message: string)
    | SaveOutcome(plan: map<Section, string>, owner: Option<string>, stamp: string)
    | StatusReport(state: ResearchState, owner: Option<string>)
    | HelpMenu
    | Goodbye
    | SmallTalk(mode: ConversationMode, pick: nat)

  /** The text the agent returns for a reply. */
  function Render(r: Reply): string {
    match r
    case AskCompany => AskCompanyName
    case PlanReloaded(c, plan) => CachedPlanReply(c, PlanSummary(plan, Some(c)))
    case PlanGenerated(c, stamp, plan) => GeneratedReply(c, stamp, PlanSummary(plan, Some(c)))
    case FromCachedResearch(c, generated) => CachedResearchReply(c, Render(generated))
    case FromFreshResearch(c, generated) => FreshReply(c, Render(generated))
    case ResearchFailed(c, m) => ResearchFailedReply(c, m)
    case SectionShown(sec, content) => ShowSection(sec, content)
    case SectionMenu(plan) => WhichSection(plan)
    case SectionUpdated(sec) => UpdatedReply(sec)
    case SectionRegenerated(sec, focus, content) => RegeneratedReply(sec, focus, content)
    case RegenerationFailed(m) => RegenerateError(m)
    case SectionEnhanced(sec, content) => EnhancedReply(sec, content)
    case EnhancementFailed(m) => EnhanceError(m)
    case SaveOutcome(plan, owner, stamp) => SaveReply(plan, owner, stamp)
    case StatusReport(st, owner) => StatusText(st, owner)
    case HelpMenu => HelpText
    case Goodbye => GoodbyeText
    case SmallTalk(mode, pick) => GeneralReply(mode, pick)
  }

  /** The agent's fields as one value, so that a turn can be stated as a
      relation between the value before and the value after it. `plan` is
      the current plan object and `sections` what it holds. */
  datatype AgentView = AgentView(
    state: ResearchState, company: Option<string>, data: map<string, seq<Record>>,
    plan: Plan, sections: map<Section, string>, summary: string,
    researchCache: map<string, ResearchEntry>, planCache: map<string, Plan>,
    pendingEdit: Option<Section>, files: DataFiles, calls: seq<Call>)

  class CompanyResearchAgent {
    const services: Services
    const userMode: ConversationMode
    var state: ResearchState
    var history: seq<Turn>
    var currentCompany: Option<string>
    var researchData: map<string, seq<Record>>
    var accountPlan: Plan
    var contextSummary: string
    var researchCache: map<string, ResearchEntry>
    var planCache: map<string, Plan>
    /** `_pending_edit_section`; `None` when the attribute is absent. */
    var pendingEdit: Option<Section>
    /** `data/context.json` and `data/context.txt`, as the collaborators last left them. */
    var dataFiles: DataFiles
    /** The collaborator calls made so far, in order. */
    ghost var calls: seq<Call>

    /** A non-empty current plan belongs to a company. */
    ghost predicate PlanOk()
      reads this`accountPlan, this`currentCompany, accountPlan
    {
      accountPlan.sections != map[] ==> currentCompany.Some?
    }

    /** A cached plan always has cached research, and cached research is
        also in the research data. */
    ghost predicate CachesOk()
      reads this`planCache, this`researchCache, this`researchData
    {
      planCache.Keys <= researchCache.Keys &&
      (forall c :: c in researchCache ==> c in researchData && researchData[c] == researchCache[c].data)
    }

    /** The transient states are never left behind, and the agent edits
        only a plan that exists (and so has all nine sections). */
    ghost predicate StateOk()
      reads this`state, this`pendingEdit, this`accountPlan, accountPlan
    {
      (state == Idle || state == GatheringInfo || state == Editing || state == Complete) &&
      (state == Editing ==> accountPlan.sections != map[])
    }

    /** What holds between turns. */
    ghost predicate Valid()
      reads this, accountPlan
    {
      PlanOk() && CachesOk() && StateOk()
    }

    /** Every field but the conversation history. */
    ghost function View(): AgentView
      reads this`state, this`currentCompany, this`researchData, this`accountPlan, this`contextSummary
      reads this`researchCache, this`planCache, this`pendingEdit, this`dataFiles, this`calls, accountPlan
    {
      AgentView(state, currentCompany, researchData, accountPlan, accountPlan.sections, contextSummary,
                researchCache, planCache, pendingEdit, dataFiles, calls)
    }

    constructor (services: Services, userMode: ConversationMode, files: DataFiles)
      ensures Valid() && fresh(accountPlan)
      ensures this.services == services && this.userMode == userMode && dataFiles == files
      ensures state == Idle && history == [] && currentCompany == None && researchData == map[]
      ensures accountPlan.sections == map[] && contextSummary == ""
      ensures researchCache == map[] && planCache == map[] && pendingEdit == None && calls == []
    {
      this.services := services;
      this.userMode := userMode;
      state := Idle;
      history := [];
      currentCompany := None;
      researchData := map[];
      accountPlan := new Plan(map[]);
      contextSummary := "";
      researchCache := map[];
      planCache := map[];
      pendingEdit := None;
      dataFiles := files;
      calls := [];
    }

    /** `get_plan_summary`. */
    method GetPlanSummary() returns (r: string)
      ensures r == PlanSummary(accountPlan.sections, currentCompany)
    {
      if accountPlan.sections == map[] {
        return NoPlanYet;
      }
      var entries := SummaryBody(accountPlan.sections);
      r := SummaryHeader(currentCompany) + entries + SummaryFooter;
    }

    /** `_perform_research`: the four queries in order, then summarisation.
        The summariser sees only what `data/context.json` holds after the
        last query, and the summary is read back from `data/context.txt`. An
        exception out of an extraction call ends the run at once, leaving
        the research data and summary as they were; it is returned as `err`. */
    method PerformResearch(name: string) returns (err: Option<string>)
      modifies this`researchData, this`contextSummary, this`dataFiles, this`calls
      ensures var g := Gather(services.extract, old(dataFiles), Queries(name));
        (g.Gathered? ==>
          err.None? &&
          var files := AfterSummarize(services.summarize, g.files);
          View() == old(View()).(data := old(researchData)[name := g.records], files := files,
                                 summary := SummaryRead(files),
                                 calls := old(calls) + ExtractCalls(Queries(name)) + [SummarizeCall])) &&
        (g.GatherFailed? ==>
          err == Some(g.message) &&
          View() == old(View()).(files := g.files, calls := old(calls) + ExtractCalls(Queries(name)[..g.attempted])))
    {
      var g, made := RunQueries(services.extract, dataFiles, Queries(name));
      calls := calls + made;
      dataFiles := g.files;
      if g.GatherFailed? {
        return Some(g.message);
      }
      researchData := researchData[name := g.records];
      calls := calls + [SummarizeCall];
      dataFiles := AfterSummarize(services.summarize, dataFiles);
      contextSummary := SummaryRead(dataFiles);
      return None;
    }

    /** `_generate_account_plan`: a new plan dictionary becomes the current
        plan, and the reply names the file it is saved under and summarises it. */
    method GenerateAccountPlan(stamp: string) returns (r: Reply)
      requires currentCompany.Some?
      modifies this`state, this`accountPlan, this`calls
      ensures fresh(accountPlan) && FullPlan(accountPlan.sections)
      ensures var sections := ComposePlan(services.generate, contextSummary, currentCompany.value);
        View() == old(View()).(state := Complete, plan := accountPlan, sections := sections,
                               calls := old(calls) + PlanCalls(contextSummary, currentCompany.value, PlanSections)) &&
        r == PlanGenerated(currentCompany.value, stamp, sections)
    {
      state := GeneratingPlan;
      var company := currentCompany.value;
      var sections, made := GenerateSections(services.generate, contextSummary, company);
      calls := calls + made;
      accountPlan := new Plan(sections);
      state := Complete;
      r := PlanGenerated(company, stamp, accountPlan.sections);
    }

    // ------------------------------------------------------------ research turns

    /** A research turn that named `c` found its research and plan cached:
        the cached plan object is reloaded, with no collaborator call. */
    ghost predicate ReloadedPlan(c: string, v0: AgentView, v: AgentView, r: Reply) {
      c in v0.researchCache && c in v0.planCache &&
      v == v0.(state := Complete, company := Some(c), plan := v0.planCache[c], sections := v.sections,
               summary := v0.researchCache[c].summary) &&
      r == PlanReloaded(c, v.sections)
    }

    /** A research turn that named `c` found only its research cached: a new
        plan is composed from the cached summary; it is not cached. */
    ghost predicate PlannedFromCache(c: string, clock: Clock, v0: AgentView, v: AgentView, r: Reply) {
      c in v0.researchCache &&
      var summary := v0.researchCache[c].summary;
      var sections := ComposePlan(services.generate, summary, c);
      v == v0.(state := Complete, company := Some(c), data := v0.data[c := v0.researchCache[c].data],
               plan := v.plan, sections := sections, summary := summary,
               calls := v0.calls + PlanCalls(summary, c, PlanSections)) &&
      r == FromCachedResearch(c, PlanGenerated(c, clock.fileStamp, sections))
    }

    /** The state in the middle of a fresh research run on `c` whose four
        queries completed: the records and their summary are current. */
    ghost predicate Researched(c: string, v0: AgentView, v: AgentView) {
      var g := Gather(services.extract, v0.files, Queries(c));
      g.Gathered? &&
      var files := AfterSummarize(services.summarize, g.files);
      v == v0.(state := Researching, company := Some(c), data := v0.data[c := g.records],
               files := files, summary := SummaryRead(files),
               calls := v0.calls + ExtractCalls(Queries(c)) + [SummarizeCall])
    }

    /** A fresh research run on `c` that completed: the research and the new
        plan object are cached. */
    ghost predicate FreshDone(c: string, clock: Clock, v0: AgentView, v: AgentView, r: Reply) {
      var g := Gather(services.extract, v0.files, Queries(c));
      g.Gathered? &&
      var files := AfterSummarize(services.summarize, g.files);
      var summary := SummaryRead(files);
      var sections := ComposePlan(services.generate, summary, c);
      v == v0.(state := Complete, company := Some(c), data := v0.data[c := g.records], files := files,
               plan := v.plan, sections := sections, summary := summary,
               researchCache := v0.researchCache[c := ResearchEntry(g.records, summary, clock.isoTime)],
               planCache := v0.planCache[c := v.plan],
               calls := v0.calls + ExtractCalls(Queries(c)) + [SummarizeCall] + PlanCalls(summary, c, PlanSections)) &&
      r == FromFreshResearch(c, PlanGenerated(c, clock.fileStamp, sections))
    }

    /** A fresh research run on `c` stopped by an exception after the
        queries `g` records: the agent is idle again, and only the
        current company, the call log and `data/context.json` (as the
        extractions before the raising one left it) changed. */
    ghost predicate FreshFailed(c: string, g: Gathered, v0: AgentView, v: AgentView) {
      g.GatherFailed? && g.attempted <= |Queries(c)| &&
      v == v0.(state := Idle, company := Some(c), files := g.files,
               calls := v0.calls + ExtractCalls(Queries(c)[..g.attempted]))
    }

    /** A research turn that named an uncached `c`: the four queries run; on
        success the research and the new plan object are cached, on an
        exception the agent is idle again, and only the company, the call
        log and the files the earlier extractions wrote changed. */
    ghost predicate ResearchedFresh(c: string, clock: Clock, v0: AgentView, v: AgentView, r: Reply) {
      var g := Gather(services.extract, v0.files, Queries(c));
      (g.GatherFailed? ==> FreshFailed(c, g, v0, v) && r == ResearchFailed(c, g.message)) &&
      (g.Gathered? ==> FreshDone(c, clock, v0, v, r))
    }

    /** A research turn that named company `c`: one of the three paths above,
        chosen by what the caches held. */
    ghost predicate ResearchedNamed(c: string, clock: Clock, v0: AgentView, v: AgentView, r: Reply) {
      if c in v0.researchCache && c in v0.planCache then ReloadedPlan(c, v0, v, r)
      else if c in v0.researchCache then PlannedFromCache(c, clock, v0, v, r)
      else ResearchedFresh(c, clock, v0, v, r)
    }

    /** The outcome of `_handle_company_research` once the turn yielded
        `name`: with no name, the agent asks for one and the current company
        becomes `unnamed`; otherwise the named company is researched. */
    ghost predicate ResearchedCompany(name: Option<string>, clock: Clock, unnamed: Option<string>,
                                      v0: AgentView, v: AgentView, r: Reply) {
      if name.None? then v == v0.(state := GatheringInfo, company := unnamed) && r == AskCompany
      else ResearchedNamed(name.value, clock, v0, v, r)
    }

    /** The research paths that compose a new plan object: cached research
        without a cached plan, or fresh research whose queries all completed. */
    ghost predicate ComposesPlan(name: Option<string>, v0: AgentView) {
      name.Some? && name.value !in v0.planCache &&
      (name.value in v0.researchCache || Gather(services.extract, v0.files, Queries(name.value)).Gathered?)
    }

    method ReloadPlan(c: string) returns (r: Reply)
      requires Valid() && c in researchCache && c in planCache
      modifies this`currentCompany, this`accountPlan, this`contextSummary, this`state
      ensures Valid()
      ensures ReloadedPlan(c, old(View()), View(), r)
    {
      currentCompany := Some(c);
      accountPlan := planCache[c];
      contextSummary := researchCache[c].summary;
      state := Complete;
      r := PlanReloaded(c, accountPlan.sections);
    }

    /** The cached research of `c` becomes the current research, ahead of
        composing a plan from it. */
    method RestoreResearch(c: string)
      requires Valid() && c in researchCache
      modifies this`currentCompany, this`contextSummary, this`researchData, this`state
      ensures CachesOk() && currentCompany == Some(c) && state == GeneratingPlan
      ensures contextSummary == researchCache[c].summary
      ensures researchData == old(researchData)[c := researchCache[c].data]
    {
      currentCompany := Some(c);
      contextSummary := researchCache[c].summary;
      researchData := researchData[c := researchCache[c].data];
      state := GeneratingPlan;
    }

    method PlanFromCachedResearch(c: string, clock: Clock) returns (r: Reply)
      requires Valid() && c in researchCache
      modifies this`currentCompany, this`contextSummary, this`researchData, this`state
      modifies this`accountPlan, this`calls
      ensures Valid() && fresh(accountPlan)
      ensures PlannedFromCache(c, clock, old(View()), View(), r)
    {
      RestoreResearch(c);
      var generated := GenerateAccountPlan(clock.fileStamp);
      r := FromCachedResearch(c, generated);
    }

    /** The research of `c` is cached with its summary and time stamp. */
    method CacheResearch(c: string, clock: Clock)
      requires CachesOk() && c in researchData
      modifies this`researchCache
      ensures CachesOk()
      ensures View() == old(View()).(researchCache := old(researchCache)[c := ResearchEntry(researchData[c], contextSummary, clock.isoTime)])
    {
      researchCache := researchCache[c := ResearchEntry(researchData[c], contextSummary, clock.isoTime)];
    }

    /** The current plan object is cached under `c`, which has cached research. */
    method CachePlan(c: string)
      requires CachesOk() && c in researchCache
      modifies this`planCache
      ensures CachesOk()
      ensures View() == old(View()).(planCache := old(planCache)[c := accountPlan])
    {
      planCache := planCache[c := accountPlan];
    }

    /** The end of a fresh research run that completed: the research is
        cached, a new plan is composed, and the plan object is cached too. */
    method CacheAndPlan(c: string, clock: Clock, ghost v0: AgentView) returns (r: Reply)
      requires PlanOk() && CachesOk() && c !in researchCache && Researched(c, v0, View())
      modifies this`accountPlan, this`calls, this`researchCache, this`planCache, this`state
      ensures Valid() && fresh(accountPlan)
      ensures FreshDone(c, clock, v0, View(), r)
    {
      CacheResearch(c, clock);
      var generated := GenerateAccountPlan(clock.fileStamp);
      CachePlan(c);
      r := FromFreshResearch(c, generated);
    }

    /** The research half of a fresh run, with its exception handler: the
        company becomes current and the four queries run; an exception
        leaves the agent idle and is returned as `err`. */
    method TryResearch(c: string) returns (err: Option<string>)
      requires Valid() && c !in researchCache
      modifies this`currentCompany, this`state, this`researchData, this`contextSummary, this`dataFiles, this`calls
      ensures var g := Gather(services.extract, old(dataFiles), Queries(c));
        g.GatherFailed? ==> err == Some(g.message) && Valid() && FreshFailed(c, g, old(View()), View())
      ensures Gather(services.extract, old(dataFiles), Queries(c)).Gathered? ==>
        err.None? && PlanOk() && CachesOk() && Researched(c, old(View()), View())
    {
      currentCompany := Some(c);
      state := Researching;
      err := PerformResearch(c);
      if err.Some? {
        state := Idle;
      }
    }

    method ResearchFresh(c: string, clock: Clock) returns (r: Reply)
      requires Valid() && c !in researchCache
      modifies this`currentCompany, this`contextSummary, this`researchData, this`state
      modifies this`accountPlan, this`calls, this`researchCache, this`planCache, this`dataFiles
      ensures Valid()
      ensures ResearchedFresh(c, clock, old(View()), View(), r)
      ensures Gather(services.extract, old(dataFiles), Queries(c)).Gathered? ==> fresh(accountPlan)
    {
      var err := TryResearch(c);
      if err.Some? {
        return ResearchFailed(c, err.value);
      }
      r := CacheAndPlan(c, clock, old(View()));
    }

    /** The cache lookup of `_handle_company_research` for a named company. */
    method ResearchNamedCompany(c: string, clock: Clock) returns (r: Reply)
      requires Valid()
      modifies this`currentCompany, this`contextSummary, this`researchData, this`state
      modifies this`accountPlan, this`calls, this`researchCache, this`planCache, this`dataFiles
      ensures Valid()
      ensures ResearchedNamed(c, clock, old(View()), View(), r)
      ensures ComposesPlan(Some(c), old(View())) ==> fresh(accountPlan)
    {
      if c in researchCache && c in planCache {
        r := ReloadPlan(c);
      } else if c in researchCache {
        r := PlanFromCachedResearch(c, clock);
      } else {
        r := ResearchFresh(c, clock);
      }
    }

    /** The branch of `_handle_company_research` taken on the extracted name;
        with no name, `unnamed` is left as the current company. */
    method ResearchExtracted(name: Option<string>, clock: Clock, unnamed: Option<string>) returns (r: Reply)
      requires Valid() && (accountPlan.sections != map[] ==> unnamed.Some?)
      modifies this`currentCompany, this`contextSummary, this`researchData, this`state
      modifies this`accountPlan, this`calls, this`researchCache, this`planCache, this`dataFiles
      ensures Valid()
      ensures ResearchedCompany(name, clock, unnamed, old(View()), View(), r)
      ensures old(accountPlan).sections == old(accountPlan.sections)
      ensures ComposesPlan(name, old(View())) ==> fresh(accountPlan)
    {
      if name.None? {
        currentCompany := unnamed;
        state := GatheringInfo;
        return AskCompany;
      }
      r := ResearchNamedCompany(name.value, clock);
    }

    /** `_handle_company_research`. */
    method HandleCompanyResearch(input: string, clock: Clock) returns (r: Reply)
      requires Valid()
      modifies this`currentCompany, this`contextSummary, this`researchData, this`state
      modifies this`accountPlan, this`calls, this`researchCache, this`planCache, this`dataFiles
      ensures Valid()
      ensures ResearchedCompany(ExtractCompanyName(input), clock, old(currentCompany), old(View()), View(), r)
      ensures old(accountPlan).sections == old(accountPlan.sections)
      ensures ComposesPlan(ExtractCompanyName(input), old(View())) ==> fresh(accountPlan)
    {
      var name := ExtractName(input);
      r := ResearchExtracted(name, clock, currentCompany);
    }

    /** `_handle_clarification`: the stripped turn becomes the current
        company, then the research handler runs on the turn. Only a turn
        with no company name leaves it in place, since a name found by the
        handler replaces it. */
    method HandleClarification(input: string, clock: Clock) returns (r: Reply)
      requires Valid()
      modifies this`currentCompany, this`contextSummary, this`researchData, this`state
      modifies this`accountPlan, this`calls, this`researchCache, this`planCache, this`dataFiles
      ensures Valid()
      ensures ResearchedCompany(ExtractCompanyName(input), clock, Some(Strip(input)), old(View()), View(), r)
      ensures old(accountPlan).sections == old(accountPlan.sections)
      ensures ComposesPlan(ExtractCompanyName(input), old(View())) ==> fresh(accountPlan)
    {
      var name := ExtractName(input);
      r := ResearchExtracted(name, clock, Some(Strip(input)));
    }

    // --------------------------------------------------------------- edit turns

    /** A follow-up that asked for a regeneration of `s` with `focus`: one
        generation call; on success the section holds the new text and the
        edit is over, on an exception nothing but the call log changes. */
    ghost predicate Regenerated(s: Section, focus: string, v0: AgentView, v: AgentView, r: Reply) {
      var query := RegenerateQuery(CompanyText(v0.company), s, focus);
      var calls := v0.calls + [GenerateCall(v0.summary, query)];
      match services.generate(v0.summary, query)
      case GenRaised(m) => v == v0.(state := Editing, calls := calls) && r == RegenerationFailed(m)
      case Generated(text) =>
        v == v0.(state := Complete, pendingEdit := None, sections := v0.sections[s := text], calls := calls) &&
        r == SectionRegenerated(s, focus, text)
    }

    /** A follow-up that asked for an enhancement of `s`: the generator sees
        the section's current text and the request; on success the section
        holds the new text and the edit is over. */
    ghost predicate Enhanced(s: Section, instructions: string, v0: AgentView, v: AgentView, r: Reply) {
      s in v0.sections &&
      var query := EnhanceQuery(CompanyText(v0.company), s, v0.sections[s], instructions);
      var calls := v0.calls + [GenerateCall(v0.summary, query)];
      match services.generate(v0.summary, query)
      case GenRaised(m) => v == v0.(state := Editing, calls := calls) && r == EnhancementFailed(m)
      case Generated(text) =>
        v == v0.(state := Complete, pendingEdit := None, sections := v0.sections[s := text], calls := calls) &&
        r == SectionEnhanced(s, text)
    }

    /** Any other follow-up is the section's new text, verbatim. */
    ghost predicate Replaced(s: Section, instructions: string, v0: AgentView, v: AgentView, r: Reply) {
      v == v0.(state := Complete, pendingEdit := None, sections := v0.sections[s := instructions]) &&
      r == SectionUpdated(s)
    }

    /** A follow-up to the pending edit of `s`, of the kind the turn asks for. */
    ghost predicate EditApplied(s: Section, kind: EditKind, focus: string, instructions: string,
                                v0: AgentView, v: AgentView, r: Reply) {
      match kind
      case Regenerate => Regenerated(s, focus, v0, v, r)
      case Enhance => Enhanced(s, instructions, v0, v, r)
      case Replace => Replaced(s, instructions, v0, v, r)
    }

    /** A request with no edit pending: the section it names becomes the
        pending edit and is shown; with none named, the sections are listed
        and the agent stays in the editing state. */
    ghost predicate SectionChosen(found: Option<Section>, v0: AgentView, v: AgentView, r: Reply) {
      match found
      case None => v == v0.(state := Editing) && r == SectionMenu(v0.sections)
      case Some(s) =>
        s in v0.sections && v == v0.(state := Editing, pendingEdit := found) && r == SectionShown(s, v0.sections[s])
    }

    /** The outcome of `_handle_edit_request`, given what the turn asks for.
        Only the current plan object, which a cache entry may share, is
        written. */
    ghost predicate Edited(kind: EditKind, focus: string, found: Option<Section>, instructions: string,
                           v0: AgentView, v: AgentView, r: Reply) {
      match v0.pendingEdit
      case Some(s) => EditApplied(s, kind, focus, instructions, v0, v, r)
      case None => SectionChosen(found, v0, v, r)
    }

    /** The end of a successful edit: `s` holds `text` and the edit is over. */
    method CompleteEdit(s: Section, text: string)
      requires Valid() && pendingEdit == Some(s) && state == Editing
      modifies accountPlan, this`pendingEdit, this`state
      ensures Valid()
      ensures View() == old(View()).(state := Complete, pendingEdit := None, sections := old(accountPlan.sections)[s := text])
    {
      accountPlan.sections := accountPlan.sections[s := text];
      pendingEdit := None;
      state := Complete;
    }

    /** `_regenerate_section`. */
    method RegenerateSection(s: Section, instructions: string) returns (r: Reply)
      requires Valid() && pendingEdit == Some(s) && state == Editing
      modifies this`state, this`pendingEdit, this`calls, accountPlan
      ensures Valid()
      ensures Regenerated(s, FocusAreas(instructions), old(View()), View(), r)
    {
      var focus := FocusAreas(instructions);
      var query := RegenerateQuery(CompanyText(currentCompany), s, focus);
      calls := calls + [GenerateCall(contextSummary, query)];
      match services.generate(contextSummary, query) {
        case GenRaised(m) =>
          r := RegenerationFailed(m);
        case Generated(text) =>
          CompleteEdit(s, text);
          r := SectionRegenerated(s, focus, text);
      }
    }

    /** `_enhance_section`. */
    method EnhanceSection(s: Section, instructions: string) returns (r: Reply)
      requires Valid() && pendingEdit == Some(s) && state == Editing
      modifies this`state, this`pendingEdit, this`calls, accountPlan
      ensures Valid()
      ensures Enhanced(s, instructions, old(View()), View(), r)
    {
      var query := EnhanceQuery(CompanyText(currentCompany), s, accountPlan.sections[s], instructions);
      calls := calls + [GenerateCall(contextSummary, query)];
      match services.generate(contextSummary, query) {
        case GenRaised(m) =>
          r := EnhancementFailed(m);
        case Generated(text) =>
          CompleteEdit(s, text);
          r := SectionEnhanced(s, text);
      }
    }

    /** The pending-edit branch of `_handle_edit_request`. */
    method ApplyEdit(s: Section, instructions: string) returns (r: Reply)
      requires Valid() && pendingEdit == Some(s) && state == Editing
      modifies this`state, this`pendingEdit, this`calls, accountPlan
      ensures Valid()
      ensures EditApplied(s, KindOf(instructions), FocusAreas(instructions), instructions, old(View()), View(), r)
    {
      match KindOf(instructions) {
        case Regenerate =>
          r := RegenerateSection(s, instructions);
        case Enhance =>
          r := EnhanceSection(s, instructions);
        case Replace =>
          CompleteEdit(s, instructions);
          r := SectionUpdated(s);
      }
    }

    /** The branch of `_handle_edit_request` with no edit pending. */
    method ChooseSection(instructions: string) returns (r: Reply)
      requires Valid() && state == Editing && pendingEdit.None?
      modifies this`pendingEdit
      ensures Valid()
      ensures SectionChosen(SectionFor(Lower(instructions), SectionKeywords), old(View()), View(), r)
    {
      var found := SelectSection(Lower(instructions));
      match found {
        case None =>
          r := SectionMenu(accountPlan.sections);
        case Some(s) =>
          pendingEdit := found;
          r := SectionShown(s, accountPlan.sections[s]);
      }
    }

    /** `_handle_edit_request`; edit requests are only routed here while a
        plan exists. */
    method HandleEditRequest(instructions: string) returns (r: Reply)
      requires Valid() && accountPlan.sections != map[]
      modifies this`state, this`pendingEdit, this`calls, accountPlan
      ensures Valid()
      ensures Edited(KindOf(instructions), FocusAreas(instructions), SectionFor(Lower(instructions), SectionKeywords),
                     instructions, old(View()), View(), r)
    {
      state := Editing;
      match pendingEdit {
        case Some(s) =>
          r := ApplyEdit(s, instructions);
        case None =>
          r := ChooseSection(instructions);
      }
    }

    // ------------------------------------------------------------ the turn loop

    /** The reply of a turn that only reads the agent. */
    function QuickReply(intent: Intent, state: ResearchState, company: Option<string>, sections: map<Section, string>,
                        clock: Clock, pick: nat): Reply {
      match intent
      case StatusCheck => StatusReport(state, company)
      case Help => HelpMenu
      case Exit => Goodbye
      case General => SmallTalk(userMode, pick)
      case _ => SaveOutcome(sections, company, clock.fileStamp)
    }

    /** What `process_input` does with the turn `input` once its intent is
        known: research (a clarification first makes the stripped turn the
        current company), an edit of the current plan, or a reply that
        changes nothing (the small-talk reply is the `pick`-th of the mode's
        replies). */
    ghost predicate Answered(intent: Intent, input: string, clock: Clock, pick: nat, v0: AgentView, v: AgentView, r: Reply) {
      if intent == CompanyName || intent == Clarification then
        var unnamed := if intent == CompanyName then v0.company else Some(Strip(input));
        ResearchedCompany(ExtractCompanyName(input), clock, unnamed, v0, v, r)
      else if intent == EditRequest then
        Edited(KindOf(input), FocusAreas(input), SectionFor(Lower(input), SectionKeywords), input, v0, v, r)
      else
        v == v0 && r == QuickReply(intent, v0.state, v0.company, v0.sections, clock, pick)
    }

    /** The dispatch of `process_input` on the detected intent. */
    method Route(intent: Intent, input: string, clock: Clock, pick: nat) returns (r: Reply)
      requires Valid() && (intent == EditRequest ==> accountPlan.sections != map[])
      modifies this`currentCompany, this`contextSummary, this`researchData, this`state
      modifies this`accountPlan, this`calls, this`researchCache, this`planCache, this`dataFiles, this`pendingEdit, accountPlan
      ensures Valid()
      ensures Answered(intent, input, clock, pick, old(View()), View(), r)
      ensures intent != EditRequest ==> old(accountPlan).sections == old(accountPlan.sections)
      ensures (intent == CompanyName || intent == Clarification) && ComposesPlan(ExtractCompanyName(input), old(View())) ==>
                fresh(accountPlan)
    {
      match intent {
        case CompanyName => r := HandleCompanyResearch(input, clock);
        case EditRequest => r := HandleEditRequest(input);
        case Clarification => r := HandleClarification(input, clock);
        case _ => r := QuickReply(intent, state, currentCompany, accountPlan.sections, clock, pick);
      }
    }

    /** `process_input`: the turn is logged, its intent is detected against
        the state and plan before the turn, and the matching handler answers. */
    method ProcessInput(input: string, clock: Clock, pick: nat) returns (r: Reply)
      requires Valid()
      modifies this`history, this`currentCompany, this`contextSummary, this`researchData, this`state
      modifies this`accountPlan, this`calls, this`researchCache, this`planCache, this`dataFiles, this`pendingEdit, accountPlan
      ensures Valid()
      ensures history == old(history) + [Turn("user", input)]
      ensures Answered(DetectIntent(input, old(state), old(accountPlan.sections) != map[]), input, clock, pick,
                       old(View()), View(), r)
      ensures DetectIntent(input, old(state), old(accountPlan.sections) != map[]) != EditRequest ==>
                old(accountPlan).sections == old(accountPlan.sections)
      ensures DetectIntent(input, old(state), old(accountPlan.sections) != map[]) in {CompanyName, Clarification} ==>
                ComposesPlan(ExtractCompanyName(input), old(View())) ==> fresh(accountPlan)
    {
      history := history + [Turn("user", input)];
      var intent := DetectIntent(input, state, accountPlan.sections != map[]);
      GuardedIntents(input, state, accountPlan.sections != map[]);
      r := Route(intent, input, clock, pick);
    }

    // ----------------------------------------------------------------- caches

    /** `clear_cache`: a non-empty name drops that company from both caches;
        no name, or an empty one, empties them. Nothing else changes. */
    method ClearCache(company: Option<string>) returns (r: string)
      requires Valid()
      modifies this`researchCache, this`planCache
      ensures Valid()
      ensures company.Some? && company.value != "" ==>
        View() == old(View()).(researchCache := old(researchCache) - {company.value},
                               planCache := old(planCache) - {company.value}) &&
        r == "Cache cleared for " + company.value
      ensures company.None? || company.value == "" ==>
        View() == old(View()).(researchCache := map[], planCache := map[]) && r == "All cache cleared"
    {
      if company.Some? && company.value != "" {
        var c := company.value;
        researchCache := researchCache - {c};
        planCache := planCache - {c};
        r := "Cache cleared for " + c;
      } else {
        researchCache := map[];
        planCache := map[];
        r := "All cache cleared";
      }
    }
  }
}
