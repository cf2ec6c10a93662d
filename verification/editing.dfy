/**
 * The pure side of plan editing (`_handle_edit_request`,
 * `_regenerate_section`, `_enhance_section`): which section a request
 * names, which kind of edit an instruction asks for, the focus it names,
 * the instructions sent to the generator and the replies.
 */
module Editing {
  import opened Wrappers
  import opened Text
  import opened Domain
  import opened Replies
  import opened Research

  /** Keyword to section, in the order the keywords are tried. */
  const SectionKeywords: seq<(string, Section)> := [
    ("executive", ExecutiveSummary),
    ("overview", CompanyOverview),
    ("stakeholder", KeyStakeholders),
    ("challenge", BusinessChallenges),
    ("opportunit", Opportunities),
    ("solution", ProposedSolutions),
    ("strategy", EngagementStrategy),
    ("metric", SuccessMetrics),
    ("next", NextSteps)
  ]

  /** The section of the first keyword of `table` found in `low`: a section
      found is paired in the table with a keyword that occurs. */
  function SectionFor(low: string, table: seq<(string, Section)>): (r: Option<Section>)
    ensures r.Some? ==> exists k :: 0 <= k < |table| && Contains(low, table[k].0) && r.value == table[k].1
  {
    if table == [] then None
    else if Contains(low, table[0].0) then Some(table[0].1)
    else SectionFor(low, table[1..])
  }

  /** `SectionFor` picks the first keyword that occurs, and finds nothing
      only when no keyword occurs. */
  lemma {:induction false} SectionForFirstMatch(low: string, table: seq<(string, Section)>)
    ensures SectionFor(low, table).None? <==> forall k :: 0 <= k < |table| ==> !Contains(low, table[k].0)
    ensures SectionFor(low, table).Some? ==>
      exists k :: 0 <= k < |table| && Contains(low, table[k].0) && SectionFor(low, table).value == table[k].1 &&
        forall j :: 0 <= j < k ==> !Contains(low, table[j].0)
  {
    if table != [] && !Contains(low, table[0].0) {
      SectionForFirstMatch(low, table[1..]);
      if SectionFor(low, table[1..]).Some? {
        var k :| 0 <= k < |table[1..]| && Contains(low, table[1..][k].0) &&
          SectionFor(low, table[1..]).value == table[1..][k].1 &&
          forall j :: 0 <= j < k ==> !Contains(low, table[1..][j].0);
        assert table[k + 1] == table[1..][k];
        assert forall j :: 0 <= j < k + 1 ==> !Contains(low, table[j].0) by {
          forall j | 0 <= j < k + 1 ensures !Contains(low, table[j].0) {
            if j > 0 { assert table[j] == table[1..][j - 1]; }
          }
        }
      } else {
        forall k | 0 <= k < |table| ensures !Contains(low, table[k].0) {
          if k > 0 { assert table[k] == table[1..][k - 1]; }
        }
      }
    }
  }

  /** The keyword loop of `_handle_edit_request`, stopping at the first hit. */
  method SelectSection(low: string) returns (s: Option<Section>)
    ensures s == SectionFor(low, SectionKeywords)
  {
    var i := 0;
    while i < |SectionKeywords|
      invariant 0 <= i <= |SectionKeywords|
      invariant SectionFor(low, SectionKeywords[i..]) == SectionFor(low, SectionKeywords)
    {
      var (keyword, section) := SectionKeywords[i];
      if Contains(low, keyword) {
        return Some(section);
      }
      assert SectionKeywords[i..][1..] == SectionKeywords[i + 1..];
      i := i + 1;
    }
    return None;
  }

  /** Words that ask for a full regeneration. */
  const RegenerateWords: seq<string> := ["regenerate", "rewrite", "redo", "create again"]
  /** Words that ask for an enhancement of the existing text. */
  const EnhanceWords: seq<string> := ["add", "include", "focus on", "emphasize", "expand"]

  /** The three kinds of follow-up instruction. */
  datatype EditKind = Regenerate | Enhance | Replace

  /** Regeneration words win over enhancement words; anything else is
      replacement content. */
  function KindOf(instructions: string): (k: EditKind)
    ensures k == Regenerate <==> ContainsAny(Lower(instructions), RegenerateWords)
    ensures k == Enhance <==>
      !ContainsAny(Lower(instructions), RegenerateWords) && ContainsAny(Lower(instructions), EnhanceWords)
  {
    var low := Lower(instructions);
    if ContainsAny(low, RegenerateWords) then Regenerate
    else if ContainsAny(low, EnhanceWords) then Enhance
    else Replace
  }

  /** The focus named after `"focus on"`, else after `"emphasize"`, trimmed;
      empty when the instruction names neither. */
  function FocusAreas(instructions: string): string {
    var low := Lower(instructions);
    if Contains(low, "focus on") then Strip(Split(low, "focus on")[1])
    else if Contains(low, "emphasize") then Strip(Split(low, "emphasize")[1])
    else ""
  }

  /** A suffix-free piece of a split, trimmed, is a trimmed infix of the
      split text free of the separator. */
  lemma StrippedPiece(low: string, sep: string, k: nat)
    requires |sep| > 0 && k < |Split(low, sep)|
    ensures var r := Strip(Split(low, sep)[k]);
      IsInfix(r, low) && !Contains(r, sep) &&
      (r != [] ==> !IsSpace(r[0]) && !IsSpace(r[|r| - 1]))
  {
    var piece := Split(low, sep)[k];
    var r := Strip(piece);
    StripShape(piece);
    SplitPiecesInfix(low, sep, k);
    SplitPiecesFree(low, sep, k);
    InfixTrans(r, piece, low);
    if Contains(r, sep) {
      InfixTrans(sep, r, piece);
    }
  }

  /** The text between the first occurrence of `sep` in `low` and the next
      one, or the end of `low` when there is no next one. */
  function AfterFirst(low: string, sep: string, i: nat): string
    requires |sep| > 0 && i + |sep| <= |low|
  {
    var rest := low[i + |sep|..];
    match Find(rest, sep)
    case Some(j) => rest[..j]
    case None => rest
  }

  /** The second piece of a split is the text between the first and the
      second occurrence of the separator. */
  lemma SecondPiece(low: string, sep: string)
    requires |sep| > 0 && Contains(low, sep)
    ensures Find(low, sep).Some? && |Split(low, sep)| >= 2
    ensures Split(low, sep)[1] == AfterFirst(low, sep, Find(low, sep).value)
  {
    var i := Find(low, sep).value;
    var rest := low[i + |sep|..];
    assert Split(low, sep) == [low[..i]] + Split(rest, sep);
    match Find(rest, sep) {
      case None => assert Split(rest, sep) == [rest];
      case Some(j) => assert Split(rest, sep)[0] == rest[..j];
    }
  }

  /** The focus is empty when neither phrase occurs; otherwise it is the
      trimmed text that follows the first occurrence of the phrase, up to
      its next occurrence: a trimmed part of the lower-cased instruction
      that no longer contains the phrase. */
  lemma FocusAreasShape(instructions: string)
    ensures var low, r := Lower(instructions), FocusAreas(instructions);
      (!Contains(low, "focus on") && !Contains(low, "emphasize") ==> r == "") &&
      (Contains(low, "focus on") ==>
         Find(low, "focus on").Some? && r == Strip(AfterFirst(low, "focus on", Find(low, "focus on").value))) &&
      (!Contains(low, "focus on") && Contains(low, "emphasize") ==>
         Find(low, "emphasize").Some? && r == Strip(AfterFirst(low, "emphasize", Find(low, "emphasize").value))) &&
      IsInfix(r, low) &&
      (r != [] ==> !IsSpace(r[0]) && !IsSpace(r[|r| - 1])) &&
      (Contains(low, "focus on") ==> !Contains(r, "focus on")) &&
      (!Contains(low, "focus on") && Contains(low, "emphasize") ==> !Contains(r, "emphasize"))
  {
    var low := Lower(instructions);
    if Contains(low, "focus on") {
      assert FocusAreas(instructions) == Strip(Split(low, "focus on")[1]);
      SecondPiece(low, "focus on");
      StrippedPiece(low, "focus on", 1);
    } else if Contains(low, "emphasize") {
      assert FocusAreas(instructions) == Strip(Split(low, "emphasize")[1]);
      SecondPiece(low, "emphasize");
      StrippedPiece(low, "emphasize", 1);
    } else {
      assert StartsAt(low, 0, "");
    }
  }

  /** The instruction for regenerating a section, with the optional focus
      line: it names the company, and the focus when there is one. */
  function RegenerateQuery(company: string, s: Section, focus: string): (r: string)
    ensures IsInfix(company, r)
    ensures focus != "" ==> IsInfix(focus, r)
  {
    var head := "Based on the research about ";
    var request := ", regenerate the " + s.Phrase() + " section for an account plan. \n        ";
    var line := if focus != "" then "Focus particularly on: " + focus else "";
    var tail := "\n        " + ProfessionalStyle;
    InfixSelf(company);
    InfixExtend(company, company, head);
    InfixExtend(company, head + company, request);
    InfixExtend(company, head + company + request, line);
    InfixExtend(company, head + company + request + line, tail);
    if focus != "" then
      InfixSelf(focus);
      InfixExtend(focus, focus, "Focus particularly on: ");
      InfixExtend(focus, line, head + company + request);
      InfixExtend(focus, head + company + request + line, tail);
      head + company + request + line + tail
    else
      head + company + request + line + tail
  }

  const EnhanceTail: string :=
    "Keep the existing content and add the requested improvements. Write in a professional business style."

  /** The instruction for enhancing a section: its current text, the request
      verbatim, and the request again as the enhancement to make. It holds
      the current text, the request and the company. */
  function EnhanceQuery(company: string, s: Section, current: string, instructions: string): (r: string)
    ensures IsInfix(current, r) && IsInfix(instructions, r) && IsInfix(company, r)
  {
    var head := "Current " + s.Phrase() + " content:\n";
    var ask := "\n\nUser request: ";
    var based := "\n\nBased on the research about ";
    var tail := ", enhance this section by " + instructions + ".\n" + EnhanceTail;
    var r := head + current + ask + instructions + based + company + tail;
    InfixSelf(current);
    InfixExtend(current, current, head);
    InfixExtend(current, head + current, ask);
    InfixExtend(current, head + current + ask, instructions);
    InfixExtend(current, head + current + ask + instructions, based);
    InfixExtend(current, head + current + ask + instructions + based, company);
    InfixExtend(current, head + current + ask + instructions + based + company, tail);
    InfixSelf(instructions);
    InfixExtend(instructions, instructions, head + current + ask);
    InfixExtend(instructions, head + current + ask + instructions, based);
    InfixExtend(instructions, head + current + ask + instructions + based, company);
    InfixExtend(instructions, head + current + ask + instructions + based + company, tail);
    InfixSelf(company);
    InfixExtend(company, company, head + current + ask + instructions + based);
    InfixExtend(company, head + current + ask + instructions + based + company, tail);
    r
  }

  /** The forty-dash rule around displayed section text. */
  const Rule: string := "----------------------------------------"

  const AnotherEdit: string := "Would you like to edit another section or save the plan?"

  /** Reply to a replacement. */
  function UpdatedReply(s: Section): string {
    CheckMark + " " + s.Title() + " has been updated.\n\n" + AnotherEdit
  }

  /** Reply to a regeneration, naming the focus when there is one. */
  function RegeneratedReply(s: Section, focus: string, content: string): string {
    CheckMark + " " + s.Title() + " has been regenerated" +
    (if focus != "" then " with focus on " + focus else "") +
    ".\n\nNew content:\n" + Rule + "\n" + content + "\n" + Rule + "\n\n" + AnotherEdit
  }

  /** Reply to an enhancement. */
  function EnhancedReply(s: Section, content: string): string {
    CheckMark + " " + s.Title() + " has been enhanced.\n\nUpdated content:\n" +
    Rule + "\n" + content + "\n" + Rule + "\n\n" + AnotherEdit
  }

  const EditOptions: string :=
    "You can:\n1. **Replace**: Provide new content to replace this section\n" +
    "2. **Regenerate**: Say \"regenerate with focus on [specific aspect]\" \n" +
    "3. **Enhance**: Say \"add [what to add]\" or \"expand on [topic]\"\n\n" +
    "What changes would you like to make?"

  /** The display of a section chosen for editing. */
  function ShowSection(s: Section, content: string): string {
    "Current " + s.Title() + " content:\n" + Rule + "\n" + content + "\n" + Rule + "\n\n" + EditOptions
  }

  /** The bullet list of the plan's sections, in plan order. */
  function SectionBullets(sections: map<Section, string>, order: seq<Section>): (r: seq<string>)
    ensures |r| <= |order|
  {
    if order == [] then []
    else (if order[0] in sections then ["- " + order[0].Title()] else []) + SectionBullets(sections, order[1..])
  }

  const WhichSectionPrompt: string := "Which section would you like to edit? Available sections:\n"

  /** The reply when a request names no section. */
  function WhichSection(sections: map<Section, string>): string {
    WhichSectionPrompt + Join("\n", SectionBullets(sections, PlanSections))
  }

  /** For a full plan, the list names every section once, in plan order. */
  lemma {:induction false} FullPlanBullets(sections: map<Section, string>, order: seq<Section>)
    requires FullPlan(sections)
    ensures |SectionBullets(sections, order)| == |order|
    ensures forall k :: 0 <= k < |order| ==> SectionBullets(sections, order)[k] == "- " + order[k].Title()
  {
    if order != [] {
      FullPlanBullets(sections, order[1..]);
      assert order[0] in sections;
    }
  }

  function RegenerateError(message: string): string {
    "Error regenerating section: " + message
  }

  function EnhanceError(message: string): string {
    "Error enhancing section: " + message
  }
}
