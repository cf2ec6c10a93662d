/**
 * Intent classification (`CompanyResearchAgent._detect_intent`): a
 * first-match cascade of keyword tests on the lower-cased turn, then the
 * company-name regular expressions.
 */
module Intent {
  import opened Text
  import opened Domain

  datatype Intent = Exit | Help | SavePlan | StatusCheck | EditRequest | Clarification | CompanyName | General

  const ExitWords: seq<string> := ["exit", "quit", "bye", "goodbye"]
  const HelpWords: seq<string> := ["help", "what can you do", "how do you work"]
  const SaveWords: seq<string> := ["save", "export", "store", "keep"]
  const StatusWords: seq<string> := ["status", "progress", "how's it going", "update"]
  const EditWords: seq<string> := ["edit", "change", "modify", "update", "regenerate", "improve", "refine"]

  /** The four keyword patterns `research\s+(\w+[\w\s]*)`,
      `look\s+(?:up|into)\s+(\w+[\w\s]*)`, `information\s+(?:on|about)\s+(\w+[\w\s]*)`
      and `tell\s+me\s+about\s+(\w+[\w\s]*)`, each written as its literal steps
      (a step lists its alternatives). Consecutive steps are separated by
      `\s+`, and the last is followed by `\s+` and a word character. */
  const KeywordPatterns: seq<seq<seq<string>>> := [
    [["research"]],
    [["look"], ["up", "into"]],
    [["information"], ["on", "about"]],
    [["tell"], ["me"], ["about"]]
  ]

  /** The end of the run of whitespace that starts at `k`. */
  function SkipSpaces(s: string, k: nat): (r: nat)
    requires k <= |s|
    ensures k <= r <= |s|
    ensures forall j :: k <= j < r ==> IsSpace(s[j])
    ensures r == |s| || !IsSpace(s[r])
    decreases |s| - k
  {
    if k < |s| && IsSpace(s[k]) then SkipSpaces(s, k + 1) else k
  }

  /** The literal `lit` at `k`, followed by at least one whitespace character. */
  predicate StepAt(s: string, k: nat, lit: string) {
    StartsAt(s, k, lit) && k + |lit| < |s| && IsSpace(s[k + |lit|])
  }

  /** The remaining `steps` of a keyword pattern match at `k`. Since no
      literal and no word character is whitespace, a greedy `\s+` loses
      nothing by consuming the whole run. */
  predicate ChainAt(s: string, k: nat, steps: seq<seq<string>>)
    decreases |steps|
  {
    k <= |s| &&
    if steps == [] then k < |s| && IsWordChar(s[k])
    else
      exists a ::
        0 <= a < |steps[0]| && StepAt(s, k, steps[0][a]) &&
        ChainAt(s, SkipSpaces(s, k + |steps[0][a]|), steps[1..])
  }

  /** `^(\w+[\w\s]*)$`: a word character, then only word characters and
      whitespace (a trailing newline is whitespace, so `$` adds nothing). */
  predicate WholeLine(s: string) {
    |s| > 0 && IsWordChar(s[0]) && forall i :: 0 <= i < |s| ==> IsWordChar(s[i]) || IsSpace(s[i])
  }

  /** A keyword pattern that matches at `k` ends on a word character at or after `k`. */
  lemma {:induction false} ChainEndsInWord(s: string, k: nat, steps: seq<seq<string>>)
    requires ChainAt(s, k, steps)
    ensures exists j :: k <= j < |s| && IsWordChar(s[j])
    decreases |steps|
  {
    if steps != [] {
      var a :| 0 <= a < |steps[0]| && StepAt(s, k, steps[0][a]) &&
        ChainAt(s, SkipSpaces(s, k + |steps[0][a]|), steps[1..]);
      ChainEndsInWord(s, SkipSpaces(s, k + |steps[0][a]|), steps[1..]);
    }
  }

  /** Some company pattern matches somewhere in `s` (`re.search`); every
      pattern needs a word character for its `\w+`. */
  predicate MatchesCompanyPattern(s: string)
    ensures MatchesCompanyPattern(s) ==> exists j :: 0 <= j < |s| && IsWordChar(s[j])
  {
    if WholeLine(s) then true
    else if exists p, k: nat :: 0 <= p < |KeywordPatterns| && k <= |s| && ChainAt(s, k, KeywordPatterns[p]) then
      var p, k: nat :| 0 <= p < |KeywordPatterns| && k <= |s| && ChainAt(s, k, KeywordPatterns[p]);
      ChainEndsInWord(s, k, KeywordPatterns[p]);
      true
    else false
  }

  /** `_detect_intent`: `hasPlan` is the truthiness of `account_plan`. The
      intent returned is one whose own rule fires on the turn. */
  function DetectIntent(input: string, state: ResearchState, hasPlan: bool): (i: Intent)
    ensures Fires(i, Lower(input), state, hasPlan)
  {
    var low := Lower(input);
    if ContainsAny(low, ExitWords) then Exit
    else if ContainsAny(low, HelpWords) then Help
    else if ContainsAny(low, SaveWords) && hasPlan then SavePlan
    else if ContainsAny(low, StatusWords) then StatusCheck
    else if ContainsAny(low, EditWords) && hasPlan then EditRequest
    else if state == GatheringInfo then Clarification
    else if MatchesCompanyPattern(low) then CompanyName
    else General
  }

  /** The test of each rule on its own, regardless of the rules before it. */
  predicate Fires(i: Intent, low: string, state: ResearchState, hasPlan: bool) {
    match i
    case Exit => ContainsAny(low, ExitWords)
    case Help => ContainsAny(low, HelpWords)
    case SavePlan => ContainsAny(low, SaveWords) && hasPlan
    case StatusCheck => ContainsAny(low, StatusWords)
    case EditRequest => ContainsAny(low, EditWords) && hasPlan
    case Clarification => state == GatheringInfo
    case CompanyName => MatchesCompanyPattern(low)
    case General => true
  }

  /** The cascade returns the first intent whose rule fires, trying them in
      the order exit, help, save, status, edit, clarification, company name,
      and falling back to general conversation. */
  lemma FirstFiringRule(input: string, state: ResearchState, hasPlan: bool)
    ensures var i, f := DetectIntent(input, state, hasPlan), (j: Intent) => Fires(j, Lower(input), state, hasPlan);
      && (i == Exit <==> f(Exit))
      && (i == Help <==> !f(Exit) && f(Help))
      && (i == SavePlan <==> !f(Exit) && !f(Help) && f(SavePlan))
      && (i == StatusCheck <==> !f(Exit) && !f(Help) && !f(SavePlan) && f(StatusCheck))
      && (i == EditRequest <==> !f(Exit) && !f(Help) && !f(SavePlan) && !f(StatusCheck) && f(EditRequest))
      && (i == Clarification <==>
           !f(Exit) && !f(Help) && !f(SavePlan) && !f(StatusCheck) && !f(EditRequest) && f(Clarification))
      && (i == CompanyName <==>
           !f(Exit) && !f(Help) && !f(SavePlan) && !f(StatusCheck) && !f(EditRequest) && !f(Clarification)
           && f(CompanyName))
      && (i == General <==>
           !f(Exit) && !f(Help) && !f(SavePlan) && !f(StatusCheck) && !f(EditRequest) && !f(Clarification)
           && !f(CompanyName))
  {
  }

  /** "update" is a status keyword checked before the edit keywords, so a turn
      containing it is never an edit request. */
  lemma UpdateIsNeverEdit(input: string, state: ResearchState, hasPlan: bool)
    requires Contains(Lower(input), "update")
    ensures DetectIntent(input, state, hasPlan) != EditRequest
  {
    assert StatusWords[3] == "update";
  }

  /** The save and edit intents need a non-empty plan; clarification needs
      the agent to be waiting for a company name. */
  lemma GuardedIntents(input: string, state: ResearchState, hasPlan: bool)
    ensures DetectIntent(input, state, hasPlan) in {SavePlan, EditRequest} ==> hasPlan
    ensures DetectIntent(input, state, hasPlan) == Clarification ==> state == GatheringInfo
    ensures state == GatheringInfo ==> DetectIntent(input, state, hasPlan) !in {CompanyName, General}
  {
  }

  /** The empty turn matches no keyword and no pattern. */
  lemma EmptyTurn(state: ResearchState, hasPlan: bool)
    ensures DetectIntent("", state, hasPlan) == if state == GatheringInfo then Clarification else General
  {
    assert Lower("") == "";
    assert !WholeLine("");
    forall p, k: nat | 0 <= p < |KeywordPatterns| && k <= 0 ensures !ChainAt("", k, KeywordPatterns[p]) {
      assert KeywordPatterns[p] != [];
    }
  }
}
