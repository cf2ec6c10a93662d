/**
 * The agent's fixed replies and the texts it composes: help, status, the
 * general-conversation fallback, the save confirmation and the plan summary.
 * Glyphs are kept as the source file spells them (its emoji and check mark
 * are stored as mis-decoded UTF-8, so each is a run of two to four
 * characters here).
 */
module Replies {
  import opened Wrappers
  import opened Text
  import opened Domain

  /** The check mark that opens every confirmation. */
  const CheckMark: string := "\U{E2}\U{153}\U{201C}"
  /** The clipboard glyph of the summary header. */
  const ClipboardGlyph: string := "\U{F0}\U{178}\U{201C}\U{2039}"
  /** The light-bulb glyph of the summary footer. */
  const BulbGlyph: string := "\U{F0}\U{178}\U{2019}\U{A1}"

  /** `str(self.current_company)`: `None` is rendered as the word. */
  function CompanyText(c: Option<string>): string {
    if c.Some? then c.value else "None"
  }

  /** The `clarify` template. */
  function ClarifyText(info: string): string {
    "Could you provide more details about " + info + "?"
  }

  /** The `update` template. */
  function UpdateText(status: string): string {
    "Update: Currently " + status
  }

  const GoodbyeText: string := "Thank you for using the Company Research Agent. Goodbye!"

  /** The `help` template, with the eight-space indentation of its source literal. */
  const HelpText: string :=
    "I can help you with:\n        \n" +
    "        1. **Company Research**: Just tell me a company name and I'll gather comprehensive information\n" +
    "        2. **Account Plan Generation**: I'll create a detailed account plan based on my research\n" +
    "        3. **Plan Editing**: You can ask me to edit any section of the generated plan\n" +
    "        4. **Status Updates**: Ask me for progress updates during research\n        \n" +
    "        **Example commands:**\n" +
    "        - \"Research Microsoft\"\n" +
    "        - \"Tell me about Apple\"\n" +
    "        - \"What's your progress?\"\n" +
    "        - \"Edit the executive summary\"\n        \n" +
    "        Just talk to me naturally - I'll understand!"

  // ---------------------------------------------------------------- status

  /** The fallback of the status table, for a state it does not list. */
  const UnknownStatus: string := "I'm not sure what I'm doing right now..."

  const IdleStatus: string := "I'm ready to start researching. Just tell me which company!"
  const WaitingStatus: string := "I'm waiting for more information from you."
  const ResearchingStatus: string := "I'm currently researching "
  const SummarizingStatus: string := "I'm summarizing the research findings..."
  const GeneratingStatus: string := "I'm generating the account plan..."
  const EditingStatus: string := "We're editing the account plan."
  const CompleteStatus: string := "Research complete for "
  const ReadySuffix: string := ". Account plan is ready!"

  /** The status table, one message per state. */
  function StatusTable(company: Option<string>): map<ResearchState, string> {
    map[
      Idle := IdleStatus,
      GatheringInfo := WaitingStatus,
      Researching := ResearchingStatus + CompanyText(company) + "...",
      Summarizing := SummarizingStatus,
      GeneratingPlan := GeneratingStatus,
      Editing := EditingStatus,
      Complete := CompleteStatus + CompanyText(company) + ReadySuffix
    ]
  }

  /** Every state has a message in the table, and none is the fallback. */
  lemma TableAnswersEveryState(state: ResearchState, company: Option<string>)
    ensures state in StatusTable(company) && StatusTable(company)[state] != UnknownStatus
  {
    var c := CompanyText(company);
    assert UnknownStatus[0] == 'I' && UnknownStatus[4] == 'n';
    match state {
      case Idle => assert |IdleStatus| != |UnknownStatus|;
      case GatheringInfo => assert |WaitingStatus| != |UnknownStatus|;
      case Researching => assert (ResearchingStatus + c + "...")[4] == ResearchingStatus[4] == 'c';
      case Summarizing => assert SummarizingStatus[4] == 's';
      case GeneratingPlan => assert |GeneratingStatus| != |UnknownStatus|;
      case Editing => assert |EditingStatus| != |UnknownStatus|;
      case Complete => assert (CompleteStatus + c + ReadySuffix)[0] == CompleteStatus[0] == 'R';
    }
  }

  /** `_get_status_update`: a table lookup with a fallback, which is never
      the answer. */
  function StatusText(state: ResearchState, company: Option<string>): (r: string)
    ensures r != UnknownStatus
  {
    var table := StatusTable(company);
    TableAnswersEveryState(state, company);
    if state in table then table[state] else UnknownStatus
  }

  /** The table lists every state, so the fallback is never the answer; the
      two messages about work on a company name it. */
  lemma StatusCoversEveryState(state: ResearchState, company: Option<string>)
    ensures state in StatusTable(company)
    ensures StatusText(state, company) == StatusTable(company)[state]
    ensures state == Researching || state == Complete ==>
      IsInfix(CompanyText(company), StatusText(state, company))
  {
    var c := CompanyText(company);
    var r := StatusText(state, company);
    match state
    case Researching =>
      assert r[|ResearchingStatus|..|ResearchingStatus| + |c|] == c;
      assert StartsAt(r, |ResearchingStatus|, c);
    case Complete =>
      assert r[|CompleteStatus|..|CompleteStatus| + |c|] == c;
      assert StartsAt(r, |CompleteStatus|, c);
    case _ =>
  }

  // ------------------------------------------------------ general fallback

  const EfficientReply: string := "Which company would you like to research?"
  const ChattyReply1: string :=
    "That's interesting! Let's focus on company research. Which company would you like me to look into?"
  const ChattyReply2: string := "I appreciate the conversation! Now, which company should we research?"
  const ChattyReply3: string :=
    "Thanks for sharing! Let's dive into some company research - which company interests you?"
  const ConfusedReply: string :=
    "I understand this might be confusing. Let me help - just tell me a company name you'd like to research, and I'll handle the rest."
  const NormalReply1: string := "I'm designed for company research. Would you like me to research a company?"
  const NormalReply2: string := "Let's focus on company research. Which company interests you?"
  const NormalReply3: string := "I can help you research companies. Which one should we start with?"

  /** The replies `_handle_general_conversation` chooses among, per mode. */
  function GeneralReplies(mode: ConversationMode): (opts: seq<string>)
    ensures |opts| >= 1
  {
    match mode
    case Efficient => [EfficientReply]
    case Chatty => [ChattyReply1, ChattyReply2, ChattyReply3]
    case Confused => [ConfusedReply]
    case Normal => [NormalReply1, NormalReply2, NormalReply3]
  }

  /** The fallback reply; `pick` stands for the outcome of `random.choice`.
      The efficient and confused modes have a single fixed reply. */
  function GeneralReply(mode: ConversationMode, pick: nat): (r: string)
    ensures r in GeneralReplies(mode)
    ensures |GeneralReplies(mode)| == 1 ==> r == GeneralReplies(mode)[0]
  {
    var opts := GeneralReplies(mode);
    opts[pick % |opts|]
  }

  // ------------------------------------------------------------------ save

  const NothingToSave: string := "No account plan to save. Please research a company first."

  /** The three file names the save writes, under `./data/`. */
  function SaveBase(company: string): string {
    "./data/" + Replace(company, " ", "_") + "_account_plan_"
  }

  const SavedTail: string :=
    "The plan has been preserved and can be accessed anytime from the data folder."

  /** Three non-empty texts laid out one after another, with other text
      between and after them, each occur where they were put, and the
      whole ends with what was put last. */
  lemma InOrder(head: string, w1: string, t1: string, w2: string, t2: string, w3: string, t3: string, tail: string)
    requires w1 != [] && w2 != []
    ensures var r := head + w1 + t1 + w2 + t2 + w3 + t3 + tail;
      |r| > |tail| && r[|r| - |tail|..] == tail &&
      exists i: nat, j: nat, k: nat :: i < j < k && StartsAt(r, i, w1) && StartsAt(r, j, w2) && StartsAt(r, k, w3)
  {
    var r := head + w1 + t1 + w2 + t2 + w3 + t3 + tail;
    var i, j, k := |head|, |head + w1 + t1|, |head + w1 + t1 + w2 + t2|;
    assert r[i..i + |w1|] == w1;
    assert r[j..j + |w2|] == w2;
    assert r[k..k + |w3|] == w3;
    assert r[|r| - |tail|..] == tail;
    assert i < j < k && StartsAt(r, i, w1) && StartsAt(r, j, w2) && StartsAt(r, k, w3);
  }

  /** The confirmation naming the three files written: the timestamped
      markdown, the latest markdown and the timestamped JSON, in that
      order, and ending with the closing sentence. */
  function SavedText(company: string, stamp: string): (r: string)
    ensures |r| > |SavedTail| && r[|r| - |SavedTail|..] == SavedTail
    ensures var base := SaveBase(company);
      exists i: nat, j: nat, k: nat :: i < j < k &&
        StartsAt(r, i, base + stamp + ".md") && StartsAt(r, j, base + "latest.md") && StartsAt(r, k, base + stamp + ".json")
  {
    var base := SaveBase(company);
    var head := CheckMark + " Account plan successfully saved to data folder!\n\nFiles created:\n" + "- ";
    var w1, w2, w3 := base + stamp + ".md", base + "latest.md", base + stamp + ".json";
    var t1 := " (timestamped version)\n" + "- ";
    var t2 := " (latest version for easy access)  \n" + "- ";
    var t3 := " (structured data)\n\n";
    InOrder(head, w1, t1, w2, t2, w3, t3, SavedTail);
    head + w1 + t1 + w2 + t2 + w3 + t3 + SavedTail
  }

  /** `_handle_save_plan`: refused when there is no plan or the company is
      missing or empty; otherwise the confirmation naming the files. */
  function SaveReply(sections: map<Section, string>, company: Option<string>, stamp: string): (r: string)
    ensures r == NothingToSave <==> sections == map[] || company.None? || company.value == ""
  {
    if sections == map[] || company.None? || company.value == "" then NothingToSave
    else
      SavedText(company.value, stamp)
  }

  // ---------------------------------------------------------- plan summary

  /** The sections the summary shows, with their headings, in order. */
  const KeySections: seq<(Section, string)> := [
    (ExecutiveSummary, ExecutiveHeading),
    (BusinessChallenges, ChallengesHeading),
    (Opportunities, OpportunitiesHeading),
    (ProposedSolutions, SolutionsHeading),
    (NextSteps, NextStepsHeading)
  ]
  const ExecutiveHeading: string := "**Executive Summary:**"
  const ChallengesHeading: string := "**Key Challenges:**"
  const OpportunitiesHeading: string := "**Main Opportunities:**"
  const SolutionsHeading: string := "**Proposed Solutions:**"
  const NextStepsHeading: string := "**Next Steps:**"

  /** The first two `'. '`-separated pieces of a section, rejoined, and cut to
      197 characters plus an ellipsis when longer than 200. */
  function Brief(content: string): (r: string)
    ensures |r| <= 200
  {
    var parts := Split(content, ". ");
    var b := Join(". ", parts[..if |parts| < 2 then |parts| else 2]);
    if |b| > 200 then b[..197] + "..." else b
  }

  /** Where the second `'. '` begins, or the end of the text when there is none. */
  function SecondStop(c: string): (e: nat)
    ensures e <= |c|
  {
    match Find(c, ". ")
    case None => |c|
    case Some(i) =>
      var rest := c[i + 2..];
      i + 2 + (if Find(rest, ". ").Some? then Find(rest, ". ").value else |rest|)
  }

  /** The second stop is a `'. '` after the first one, and no `'. '` begins
      between the first stop and it: the text before it holds at most one. */
  lemma {:induction false} SecondStopShape(c: string)
    ensures var e := SecondStop(c);
      (e < |c| ==> StartsAt(c, e, ". ") && Find(c, ". ").Some? && Find(c, ". ").value + 2 <= e) &&
      (Find(c, ". ").Some? ==> forall j: nat :: Find(c, ". ").value + 2 <= j < e ==> !StartsAt(c, j, ". "))
  {
    if Find(c, ". ").Some? {
      var i := Find(c, ". ").value;
      StopsInRest(c, i + 2);
    }
  }

  /** A `'. '` at or after `d` is one in the text from `d` on, shifted by `d`. */
  lemma StopsInRest(c: string, d: nat)
    requires d <= |c|
    ensures forall k: nat :: d <= k ==> (StartsAt(c, k, ". ") <==> StartsAt(c[d..], k - d, ". "))
  {
    forall k: nat | d <= k ensures StartsAt(c, k, ". ") <==> StartsAt(c[d..], k - d, ". ") {
      StartsAtShift(c, d, k - d, ". ");
    }
  }

  /** `sep.join` of two pieces. */
  lemma JoinTwo(sep: string, a: string, b: string)
    ensures Join(sep, [a, b]) == a + sep + b
  {
    assert [a, b][1..] == [b];
  }

  /** The first piece of a split ends at the first separator. */
  lemma SplitHead(c: string, sep: string)
    requires |sep| > 0
    ensures Find(c, sep).None? ==> Split(c, sep) == [c]
    ensures Find(c, sep).Some? ==>
      Split(c, sep) == [c[..Find(c, sep).value]] + Split(c[Find(c, sep).value + |sep|..], sep)
  {
  }

  /** Cutting a text at `e` past a stop at `i`: the text before the stop,
      the stop, and what follows it up to `e`. */
  lemma AroundStop(c: string, i: nat, e: nat)
    requires StartsAt(c, i, ". ") && i + 2 <= e <= |c|
    ensures c[..e] == c[..i] + ". " + c[i + 2..][..e - (i + 2)]
  {
    assert c[..e] == c[..i] + c[i..i + 2] + c[i + 2..e];
    assert c[i + 2..][..e - (i + 2)] == c[i + 2..e];
  }

  /** Splitting on `'. '`, keeping two pieces and rejoining keeps exactly the
      text before the second `'. '`. */
  lemma {:induction false} TwoSentences(c: string)
    ensures var parts := Split(c, ". ");
      Join(". ", parts[..if |parts| < 2 then |parts| else 2]) == c[..SecondStop(c)]
  {
    var parts := Split(c, ". ");
    SplitHead(c, ". ");
    if Find(c, ". ").None? {
      assert parts[..1] == [c];
      assert c[..|c|] == c;
    } else {
      var i := Find(c, ". ").value;
      var rest := c[i + 2..];
      var tail := Split(rest, ". ");
      SplitHead(rest, ". ");
      assert |parts| >= 2 && parts[..2] == [c[..i], tail[0]];
      JoinTwo(". ", c[..i], tail[0]);
      var e := SecondStop(c);
      var j := e - (i + 2);
      assert tail[0] == rest[..j];
      AroundStop(c, i, e);
    }
  }

  /** The brief of a section is its first two sentences when those fit in 200
      characters, and otherwise their first 197 characters and `"..."`:
      never longer than 200. */
  lemma {:induction false} BriefShape(c: string)
    ensures var e := SecondStop(c);
      (e <= 200 ==> Brief(c) == c[..e]) &&
      (e > 200 ==> Brief(c) == c[..197] + "...")
    ensures |Brief(c)| <= 200
  {
    TwoSentences(c);
    var e := SecondStop(c);
    if e > 200 {
      assert c[..e][..197] == c[..197];
    }
  }

  /** A heading and the brief of its section. */
  function SummaryLine(heading: string, content: string): string {
    heading + "\n" + Brief(content) + "\n\n"
  }

  /** One entry of the summary: present sections only. */
  function SummaryEntry(sections: map<Section, string>, key: (Section, string)): string {
    if key.0 in sections then SummaryLine(key.1, sections[key.0]) else ""
  }

  /** The entries of `keys`, in order; defined on the last key, as the loop appends. */
  function SummaryEntries(sections: map<Section, string>, keys: seq<(Section, string)>): string
    decreases |keys|
  {
    if keys == [] then ""
    else SummaryEntries(sections, keys[..|keys| - 1]) + SummaryEntry(sections, keys[|keys| - 1])
  }

  const NoPlanYet: string := "No account plan available yet."

  function SummaryHeader(company: Option<string>): string {
    "**" + ClipboardGlyph + " Account Plan Summary for " + CompanyText(company) + "**\n\n"
  }

  const SummaryFooter: string :=
    BulbGlyph + " *For the complete plan, click on the plan in the sidebar or ask me to show specific sections.*"

  /** `get_plan_summary`: the no-plan message exactly when the plan is empty. */
  function PlanSummary(sections: map<Section, string>, company: Option<string>): (r: string)
    ensures r == NoPlanYet <==> sections == map[]
  {
    if sections == map[] then NoPlanYet
    else
      SummaryHeader(company) + SummaryEntries(sections, KeySections) + SummaryFooter
  }

  /** A full plan's summary shows all five key sections, each as its heading
      and its brief, in order. */
  lemma FullPlanSummary(sections: map<Section, string>, company: Option<string>)
    requires FullPlan(sections)
    ensures PlanSummary(sections, company) ==
      SummaryHeader(company) +
      (SummaryLine(ExecutiveHeading, sections[ExecutiveSummary]) +
       SummaryLine(ChallengesHeading, sections[BusinessChallenges]) +
       SummaryLine(OpportunitiesHeading, sections[Opportunities]) +
       SummaryLine(SolutionsHeading, sections[ProposedSolutions]) +
       SummaryLine(NextStepsHeading, sections[NextSteps])) +
      SummaryFooter
  {
    var k := KeySections;
    assert ExecutiveSummary in sections && BusinessChallenges in sections && Opportunities in sections;
    assert ProposedSolutions in sections && NextSteps in sections;
    var e0 := SummaryLine(ExecutiveHeading, sections[ExecutiveSummary]);
    var e1 := SummaryLine(ChallengesHeading, sections[BusinessChallenges]);
    var e2 := SummaryLine(OpportunitiesHeading, sections[Opportunities]);
    var e3 := SummaryLine(SolutionsHeading, sections[ProposedSolutions]);
    var e4 := SummaryLine(NextStepsHeading, sections[NextSteps]);
    assert k[..1][..0] == [];
    assert SummaryEntries(sections, k[..1]) == e0;
    assert k[..2][..1] == k[..1];
    assert SummaryEntries(sections, k[..2]) == e0 + e1;
    assert k[..3][..2] == k[..2];
    assert SummaryEntries(sections, k[..3]) == e0 + e1 + e2;
    assert k[..4][..3] == k[..3];
    assert SummaryEntries(sections, k[..4]) == e0 + e1 + e2 + e3;
    assert k[..5] == k && k[..4] == k[..|k| - 1];
    assert SummaryEntries(sections, k) == e0 + e1 + e2 + e3 + e4;
    assert sections != map[];
    assert PlanSummary(sections, company) == SummaryHeader(company) + SummaryEntries(sections, k) + SummaryFooter;
  }

  /** The entry loop of `get_plan_summary`: the key sections in order, each
      present one as its heading and brief. */
  method SummaryBody(plan: map<Section, string>) returns (entries: string)
    ensures entries == SummaryEntries(plan, KeySections)
  {
    entries := "";
    var i := 0;
    while i < |KeySections|
      invariant 0 <= i <= |KeySections|
      invariant entries == SummaryEntries(plan, KeySections[..i])
    {
      var (key, heading) := KeySections[i];
      if key in plan {
        entries := entries + SummaryLine(heading, plan[key]);
      }
      assert KeySections[..i + 1][..i] == KeySections[..i];
      i := i + 1;
    }
    assert KeySections[..i] == KeySections;
  }
}
