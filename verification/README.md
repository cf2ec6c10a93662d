# Company research agent — a Dafny model

This project models `CompanyResearchAgent`, the conversational agent behind the company research and account plan
tool (`src/company_research_agent.py`). Each user turn goes through three steps:

1. The turn is classified with a first-match cascade of keyword tests and company-name regular expressions.
2. It is sent to a handler. There are handlers for research (with a research cache and a plan cache), plan
   generation, the two-turn section editor, status and help replies, saving, and small talk.
3. The handler answers with a reply, and the agent's fields change in place.

The model has nine modules:

| module | file | contents |
|---|---|---|
| `Wrappers` | `wrappers.dfy` | `Option` |
| `Text` | `text.dfy` | the Python `str` operations the agent uses: `lower`, `in`, `find`, `split`, `join`, `replace`, `strip`, `split()`, `capitalize` |
| `Domain` | `domain.dfy` | the `ResearchState` values, the nine plan sections, records, cache entries, and the three external services as oracles |
| `Intent` | `intent.dfy` | `_detect_intent` |
| `Naming` | `naming.dfy` | `_extract_company_name` |
| `Replies` | `replies.dfy` | status, help, save, small-talk and plan-summary texts |
| `Research` | `research.dfy` | the query loop and the section loop, each as a specification function with the method that runs the loop |
| `Editing` | `editing.dfy` | the keyword table, edit kinds, focus phrase and edit replies |
| `Agent` | `agent.dfy` | `class CompanyResearchAgent`, whose fields are updated turn by turn, and `class Plan` |

**Plan dictionaries are shared objects.** Plan dictionaries are objects of `class Plan`. After a fresh research
run, the current plan and the cached plan of the same company are the same object. An in-place section edit
therefore changes the cached plan too, as it does in the source.

**Turn contracts.** Each turn is specified as a relation between the agent's fields before and after it, written
as ghost predicates over an `AgentView` snapshot. The conversation history is stated separately.

**The call log.** A ghost call log records every call to a collaborator, in order. This lets the contracts say
which services a turn calls. For example, reloading a cached plan calls none, and a fresh run that completes makes
exactly four extraction calls with the fixed queries.

**Collaborators, clock and randomness.** The agent object holds the collaborators (extraction, summarisation,
generation). The clock (`datetime.now()` in its two renderings) and the index chosen by `random.choice` are
parameters of a turn.

## Model

| member | source | states |
|---|---|---|
| Text.LowerChar | src/company_research_agent.py:109 | lower-casing a character keeps whitespace as whitespace and leaves no ASCII capital |
| Text.UpperChar | src/company_research_agent.py:591 | upper-casing a character keeps whitespace as whitespace and leaves no ASCII small letter |
| Text.Lower | src/company_research_agent.py:109 | `lower()` keeps the length, leaves no ASCII capital, agrees with the original up to case, and keeps every character that was not a capital |
| Text.LowerIdempotent | src/company_research_agent.py:577 | lower-casing twice is lower-casing once |
| Text.Find | src/company_research_agent.py:391 | the result is an occurrence of the needle with none before it; `None` exactly when the needle does not occur |
| Text.StartsAtShift | src/company_research_agent.py:616 | an occurrence at `d + j` is an occurrence at `j` in the suffix from `d` |
| Text.Split | src/company_research_agent.py:391 | `split(sep)` yields at least one piece, and at least two when `sep` occurs |
| Text.Join | src/company_research_agent.py:616-617 | `join` puts the first part at the start of the result, followed by the separator when there are more parts |
| Text.Replace | src/company_research_agent.py:584-585 | `replace` leaves a text without the target unchanged, and so does replacing the target by itself |
| Text.JoinSplit | src/company_research_agent.py:616-617 | joining the pieces of a split with the same separator gives the original string back |
| Text.PrefixBeforeFirst | src/company_research_agent.py:391 | the text before the first occurrence of a separator does not contain it |
| Text.SplitPiecesFree | src/company_research_agent.py:391 | no piece of a split contains the separator |
| Text.SplitPiecesInfix | src/company_research_agent.py:391 | every piece of a split is a substring of the split string |
| Text.InfixTrans | src/company_research_agent.py:391 | a substring of a substring is a substring |
| Text.TrimLeft | src/company_research_agent.py:588 | `lstrip()` is the suffix left after removing only whitespace, and it starts with a non-space |
| Text.TrimRight | src/company_research_agent.py:588 | `rstrip()` is the prefix left after removing only whitespace, and it ends with a non-space |
| Text.Strip | src/company_research_agent.py:588 | `strip()` is no longer than the text and has no whitespace at either end |
| Text.StripShape | src/company_research_agent.py:588 | `strip()` is empty exactly for all-whitespace text, and is otherwise a substring of the text |
| Text.WordEnd | src/company_research_agent.py:591 | the leading run of non-space characters ends at whitespace or at the end of the text |
| Text.WordsShape | src/company_research_agent.py:591 | every word of `split()` is non-empty and contains no whitespace, and there are no words exactly when the text is all whitespace |
| Text.Capitalize | src/company_research_agent.py:591 | `capitalize()` keeps the length |
| Text.Normalize | src/company_research_agent.py:591 | split/capitalize/join gives the empty string exactly for all-whitespace text |
| Domain.PlanIndex | src/company_research_agent.py:271-281 | every section has a position in the plan order, and that position holds it |
| Domain.PlanIndexAt | src/company_research_agent.py:271-281 | the position of the section at position `k` is `k` |
| Domain.PlanSectionsComplete | src/company_research_agent.py:271-281 | the plan order lists each of the nine sections exactly once |
| Intent.SkipSpaces | src/company_research_agent.py:137-140 | the `\s+` step consumes exactly the run of whitespace at the given position |
| Intent.ChainEndsInWord | src/company_research_agent.py:136-139 | a keyword pattern that matches ends on a word character (its `\w+`) |
| Intent.MatchesCompanyPattern | src/company_research_agent.py:135-146 | a turn that matches any company pattern contains a word character |
| Intent.DetectIntent | src/company_research_agent.py:107-149 | the intent detected is always one whose own rule fires on the lower-cased turn |
| Intent.FirstFiringRule | src/company_research_agent.py:107-149 | the intent is the first whose rule fires, in the order exit, help, save (plan needed), status, edit (plan needed), clarification (gathering info), company pattern, general; both directions of each case |
| Intent.UpdateIsNeverEdit | src/company_research_agent.py:124-129 | no turn containing "update" is an edit request |
| Intent.GuardedIntents | src/company_research_agent.py:119-133 | save and edit need a non-empty plan; clarification happens only while gathering info, and while gathering info a turn is never a company name or general |
| Intent.EmptyTurn | src/company_research_agent.py:107-149 | the empty turn is general conversation, or clarification while gathering info |
| Naming.ExtractName | src/company_research_agent.py:574-594 | the extraction as the code runs it equals the specification `ExtractCompanyName` |
| Naming.DeletePhrases | src/company_research_agent.py:584-585 | the deletion loop removes the phrases in list order, as `RemovePhrases` defines |
| Naming.RemovePhrases | src/company_research_agent.py:578-585 | a lower-cased turn holding none of the filler phrases is left as it is |
| Naming.ExtractCompanyName | src/company_research_agent.py:574-594 | a company name that is found is never empty |
| Naming.CapitalizeShape | src/company_research_agent.py:591 | `capitalize()` of a non-empty word without whitespace gives a capitalised word, still without whitespace |
| Naming.CapitalizeFixes | src/company_research_agent.py:591 | capitalising a capitalised word changes nothing |
| Naming.JoinShape | src/company_research_agent.py:591 | capitalised words joined by single spaces make a single-spaced name of capitalised words |
| Naming.TrimLeftNoLead | src/company_research_agent.py:588 | `lstrip()` of text that does not start with whitespace changes nothing |
| Naming.WordsCons | src/company_research_agent.py:591 | a word followed by whitespace or by nothing is the first word of `split()` |
| Naming.WordsOfWord | src/company_research_agent.py:591 | a single word splits into itself |
| Naming.WordsOfJoin | src/company_research_agent.py:591 | splitting non-empty, space-free words joined by single spaces gives them back |
| Naming.NormalizeFixesJoined | src/company_research_agent.py:591 | split/capitalize/join of capitalised words joined by single spaces changes nothing |
| Naming.CapitalizedWordsOf | src/company_research_agent.py:591 | every word of the capitalised split is capitalised and free of whitespace |
| Naming.ExtractNoneIff | src/company_research_agent.py:588-594 | the result is `None` exactly when only whitespace is left once the phrases are deleted |
| Naming.ExtractShape | src/company_research_agent.py:588-592 | an extracted name has no outer whitespace, single-space separators and capitalised words |
| Naming.ExtractIsNormalized | src/company_research_agent.py:591 | re-applying split/capitalize/join to an extracted name leaves it unchanged |
| Naming.ExtractIgnoresCase | src/company_research_agent.py:577 | a turn and its lower-cased form give the same name |
| Replies.StatusCoversEveryState | src/company_research_agent.py:528-540 | the status table lists every state, so the fallback message never answers; the researching and complete messages contain the company |
| Replies.TableAnswersEveryState | src/company_research_agent.py:530-540 | every state has a message in the status table, and no message is the fallback text |
| Replies.StatusText | src/company_research_agent.py:528-540 | the status reply is never the "I'm not sure what I'm doing right now..." fallback |
| Replies.GeneralReplies | src/company_research_agent.py:551-572 | every conversation mode has at least one reply to choose from |
| Replies.GeneralReply | src/company_research_agent.py:551-572 | the small-talk reply is one of its mode's replies, and the only one when the mode has one |
| Replies.SavedText | src/company_research_agent.py:510-517 | the save confirmation names the timestamped `.md`, the `latest.md` and the timestamped `.json` files, in that order, and ends with the fixed closing sentence |
| Replies.SaveReply | src/company_research_agent.py:465-466 | the save is refused exactly when there is no plan or no (or an empty) company |
| Replies.SecondStop | src/company_research_agent.py:616-617 | the cut point lies within the text |
| Replies.SecondStopShape | src/company_research_agent.py:616-617 | the cut is the second `'. '` (after the first), and no `'. '` starts between the first one and the cut |
| Replies.StopsInRest | src/company_research_agent.py:616 | a `'. '` at or past `d` is one in the suffix from `d`, shifted by `d` |
| Replies.JoinTwo | src/company_research_agent.py:617 | joining two pieces puts the separator between them |
| Replies.SplitHead | src/company_research_agent.py:616 | the first piece of a split ends at the first separator |
| Replies.AroundStop | src/company_research_agent.py:616-617 | a prefix that passes a stop is the text before the stop, the stop, and the text after it |
| Replies.TwoSentences | src/company_research_agent.py:616-617 | splitting on `'. '`, keeping two pieces and rejoining gives exactly the text before the second `'. '` |
| Replies.BriefShape | src/company_research_agent.py:615-619 | a brief is the first two sentences when they fit in 200 characters, else the first 197 characters and `"..."`; never over 200 |
| Replies.Brief | src/company_research_agent.py:615-619 | a section brief is never longer than 200 characters |
| Replies.PlanSummary | src/company_research_agent.py:596-599 | the "No account plan available yet." message is returned exactly when the plan is empty |
| Replies.FullPlanSummary | src/company_research_agent.py:601-624 | a full plan's summary is the header, the five key sections in order (each heading and its brief), then the footer |
| Replies.SummaryBody | src/company_research_agent.py:612-620 | the entry loop yields the present key sections, in order, each as heading and brief |
| Research.Queries | src/company_research_agent.py:224-229 | exactly four fixed queries |
| Research.AfterExtract | src/web_context_extract.py:181-250 | an extraction call leaves `data/context.txt` as it was (it writes only `data/context.json`, and only when the search found URLs) |
| Research.Gather | src/company_research_agent.py:231-251 | a run stopped by an exception has issued between one and all of the queries |
| Research.AllRecords | src/company_research_agent.py:231-251 | every record the run reads was either in `data/context.json` before the run or returned by one of its extractions |
| Research.AllRecordsSnoc | src/company_research_agent.py:240-249 | one more query acts on the files the earlier ones left, and its read appends what `data/context.json` then holds (nothing when there is no such file) |
| Research.GatherConcatenates | src/company_research_agent.py:231-254 | with no exception, the research data is the in-order concatenation of what each read returned, and the files are as the extractions in turn left them |
| Research.GatherFailureSticks | src/company_research_agent.py:233-243 | once the queries so far have ended in an exception, the whole run ends the same way |
| Research.GatherStopsAtFirstRaise | src/company_research_agent.py:233-243 | the first extraction that raises ends the run with its message, after exactly that many queries, with the files as the earlier queries left them |
| Research.LastWriteWins | src/company_research_agent.py:240-246 | `data/context.json` holds the records of the last extraction that wrote it; later queries that found no URL leave it alone |
| Research.NoSourcesRereads | src/company_research_agent.py:240-249 | a query that finds no URL appends again whatever `data/context.json` already held, from this run or an earlier one |
| Research.ExtractionKeepsSummaryFile | src/company_research_agent.py:233-251 | the query loop never changes `data/context.txt` |
| Research.AfterSummarize | src/context_summarizer.py:22-118 | summarisation leaves `data/context.json` as it was |
| Research.SummaryOfLastWrite | src/company_research_agent.py:256-264 | the summary read after a run is the summary of the last extraction that wrote `data/context.json`, not of all the records gathered |
| Research.StaleSummary | src/company_research_agent.py:256-264 | when the summariser writes nothing, the summary read is the one already in `data/context.txt` (from an earlier run), or "No summary available" |
| Research.ComposePlan | src/company_research_agent.py:271-297 | a composed plan has all nine sections |
| Research.ComposePlanShape | src/company_research_agent.py:271-295 | a new plan has all nine sections; a failed generation becomes `"[Section generation failed: <msg>]"`, and any other section is its own generated text |
| Research.ComposedBySection | src/company_research_agent.py:284-297 | a dictionary holding each section's own generated text is the composed plan |
| Research.GenerateSections | src/company_research_agent.py:284-297 | the section loop builds the composed plan (all nine keys) with one generation call per section, in plan order |
| Research.RunQueries | src/company_research_agent.py:233-251 | the query loop computes `Gather`: it threads `data/context.json` through the extractions and reads it back after each, and it issues the extraction calls in order up to the one that raised |
| Editing.SectionFor | src/company_research_agent.py:359-363 | a section found is paired in the keyword table with a keyword that occurs in the request |
| Editing.SectionForFirstMatch | src/company_research_agent.py:347-367 | the section chosen is that of the first keyword in table order that occurs; none is chosen exactly when no keyword occurs |
| Editing.SelectSection | src/company_research_agent.py:359-363 | the keyword loop, stopping at the first hit, computes `SectionFor` on the keyword table |
| Editing.KindOf | src/company_research_agent.py:332-341 | a follow-up is a regeneration exactly when it holds a regeneration word, an enhancement exactly when it holds no regeneration word but an enhancement word, and a replacement otherwise |
| Editing.StrippedPiece | src/company_research_agent.py:391-393 | a trimmed piece of a split is a substring of the split text, has no outer whitespace and does not contain the separator |
| Editing.SecondPiece | src/company_research_agent.py:391-393 | the second piece of a split is the text between the first occurrence of the separator and the next one (or the end) |
| Editing.FocusAreasShape | src/company_research_agent.py:388-393 | the focus is empty when neither phrase occurs; otherwise it is the trimmed text after the first "focus on" (or, failing that, "emphasize") up to that phrase's next occurrence, a substring of the lower-cased request free of the phrase |
| Editing.RegenerateQuery | src/company_research_agent.py:396-398 | the regeneration instruction names the company, and the focus when there is one |
| Editing.EnhanceQuery | src/company_research_agent.py:430-436 | the enhancement instruction holds the section's current text, the request and the company |
| Editing.FullPlanBullets | src/company_research_agent.py:365-367 | for a full plan, the list of sections names every section once, in plan order |
| Agent.Plan.constructor | src/company_research_agent.py:297 | a new plan dictionary holds the given sections |
| Agent.CompanyResearchAgent.constructor | src/company_research_agent.py:42-51 | a new agent is idle, with an empty plan, history, research data and caches, no company and no pending edit, and with `data/context.json` and `data/context.txt` as given |
| Agent.CompanyResearchAgent.GetPlanSummary | src/company_research_agent.py:596-624 | the summary of the current plan, as `PlanSummary` defines it |
| Agent.CompanyResearchAgent.PerformResearch | src/company_research_agent.py:219-264 | on success, the company's research data is what the reads of `data/context.json` returned, the summariser runs on that file as the last extraction left it, and the summary is what `data/context.txt` then holds (possibly from an earlier run) or the fallback text; on an exception, only the files and the call log change |
| Agent.CompanyResearchAgent.GenerateAccountPlan | src/company_research_agent.py:266-321 | a fresh, full plan object replaces the current plan wholesale; the state becomes complete; one generation call per section |
| Agent.CompanyResearchAgent.ReloadPlan | src/company_research_agent.py:168-180 | with both caches hit, the cached plan object and summary are loaded, the state becomes complete, and no collaborator is called |
| Agent.CompanyResearchAgent.RestoreResearch | src/company_research_agent.py:182-185 | the cached summary and data become current, and the state becomes generating-plan |
| Agent.CompanyResearchAgent.PlanFromCachedResearch | src/company_research_agent.py:181-188 | with only the research cached, a plan is composed from the cached summary and the plan cache is not written |
| Agent.CompanyResearchAgent.CacheResearch | src/company_research_agent.py:200-205 | the research cache gains the data, summary and time stamp, and nothing else changes |
| Agent.CompanyResearchAgent.CachePlan | src/company_research_agent.py:210-211 | the plan cache gains the current plan object itself, and nothing else changes |
| Agent.CompanyResearchAgent.CacheAndPlan | src/company_research_agent.py:200-211 | after completed queries, the research is cached, a plan is composed, and the same plan object is cached |
| Agent.CompanyResearchAgent.TryResearch | src/company_research_agent.py:190-215 | the company becomes current and the queries run; an exception leaves the agent idle, with the company, `data/context.json` (as the extractions before the raising one left it) and the call log changed |
| Agent.CompanyResearchAgent.ResearchFresh | src/company_research_agent.py:190-217 | an uncached company is researched: success caches research and plan; an exception returns its message and leaves the agent idle |
| Agent.CompanyResearchAgent.ResearchNamedCompany | src/company_research_agent.py:162-217 | the three cache paths: both caches hit, research cache only, or no cache |
| Agent.CompanyResearchAgent.ResearchExtracted | src/company_research_agent.py:154-160 | with no name, the agent asks for one, enters gathering-info, makes `unnamed` the current company and changes nothing else; otherwise the named company is researched; the plan object held before the turn keeps its sections, and a freshly composed plan is a new object |
| Agent.CompanyResearchAgent.HandleCompanyResearch | src/company_research_agent.py:151-217 | the research turn on the name extracted from the input, with the current company kept when none is found; the plan held before the turn keeps its sections, and a composed plan is a new object; a research turn never changes the sections of a cached plan object, so a later reload returns what that object holds then, edits included |
| Agent.CompanyResearchAgent.HandleClarification | src/company_research_agent.py:522-526 | the research turn, with the stripped input left as the current company when no name is found; the plan held before the turn keeps its sections, and a composed plan is a new object |
| Agent.CompanyResearchAgent.CompleteEdit | src/company_research_agent.py:341-343 | only the pending section is overwritten; the pending edit is cleared and the state becomes complete |
| Agent.CompanyResearchAgent.RegenerateSection | src/company_research_agent.py:386-423 | one generation call with the focus phrase; on success the section holds the new text and the edit ends; on an exception the plan and the pending edit are untouched |
| Agent.CompanyResearchAgent.EnhanceSection | src/company_research_agent.py:425-461 | one generation call given the current text and the request; on success the section holds the new text and the edit ends; on an exception the plan and the pending edit are untouched |
| Agent.CompanyResearchAgent.ApplyEdit | src/company_research_agent.py:328-344 | the follow-up is a regeneration, an enhancement or a verbatim replacement, in that order of precedence |
| Agent.CompanyResearchAgent.ChooseSection | src/company_research_agent.py:346-384 | the first keyword in table order sets the pending edit and shows the section; with no match the sections are listed; the plan is unchanged either way |
| Agent.CompanyResearchAgent.HandleEditRequest | src/company_research_agent.py:323-384 | the edit handler enters editing, then applies the pending edit or chooses a section; a failed choice leaves the agent editing with no pending edit |
| Agent.CompanyResearchAgent.Route | src/company_research_agent.py:89-105 | the dispatch on the intent: research, clarification and edit turns run their handlers; every other intent changes nothing and gets its fixed reply; only an edit turn may change the sections of the plan held before the turn, and a research or clarification turn that composes a plan installs a new plan object |
| Agent.CompanyResearchAgent.ProcessInput | src/company_research_agent.py:82-105 | the turn is appended to the history, its intent is detected on the state before the turn, and the agent moves as that intent's handler specifies; unless the turn is an edit, the plan held before the turn keeps its sections, and a research or clarification turn that composes a plan installs a new plan object; the invariant is kept, so the summarising, researching and generating states are never left behind |
| Agent.CompanyResearchAgent.ClearCache | src/company_research_agent.py:626-637 | a non-empty name removes only that key from both caches (so it is idempotent); no name or an empty one empties both; no other field changes |

## Left out

- Console output: the `print` progress messages are not modelled. Neither are `InteractiveSession` and `main`
  (src/company_research_agent.py:640 onward).
- File writes are left out: the plan file written by `_generate_account_plan` and the markdown and JSON files
  written by `_handle_save_plan`. The model keeps the save guard, the file names and the confirmation text. The
  "Error saving plan" path, which only a failed write can reach, is left out.
- Agent.CompanyResearchAgent.GenerateAccountPlan, CacheAndPlan and PlanFromCachedResearch: the plan-file write
  (src/company_research_agent.py:314-316) always succeeds in the model. In the source the new plan is already
  current and the state already COMPLETE (:297-298) when `open()` runs, and the write can fail (for example for a
  company name containing `/`). On the fresh-research path the `except` at :213-215 then catches it: the agent
  ends IDLE with the new plan current and the research cached, but the plan not cached, and the reply ends with
  the error. On the cached-research path (:187) nothing catches it, and the exception leaves `process_input`.
  Neither outcome is modelled.
- `async`/`await` is left out. Every turn runs to completion before the next one starts.
- The service clients are not part of this model: `src/web_context_extract.py`, `src/context_summarizer.py` and
  `src/article_writer.py`. They are represented by the three oracles in `Domain.Services`, and the two files they
  hand their results over in, `data/context.json` and `data/context.txt`, are a field of the agent (`DataFiles`).
  - An extraction call either writes its records to `data/context.json`, finds no URL and writes nothing, or
    raises. Its `sources.md` file is left out.
  - The summariser either writes a summary of a readable, non-empty `data/context.json` to `data/context.txt`, or
    writes nothing. It catches every exception itself, so it never raises. How the summary text is computed (the
    API or the fallback list) is the oracle's answer.
  - A file that exists but does not parse is modelled like a missing one; the reads of the agent treat both the
    same way.
  - Only extraction and generation can raise.
  - Each oracle in `Agent.CompanyResearchAgent.services` is fixed for the agent's lifetime, so equal arguments
    give equal answers. The real generator is a language model prompted with the current date, so two equal
    requests can be answered differently; no stated property depends on the answers being repeatable.
- The `get_response` template lookup is modelled by its three resulting strings. `response_templates` is not kept
  as a field.
- `datetime.now()` is modelled as the `Clock` parameter of a turn. `random.choice` is modelled as the `pick`
  parameter: the reply is the `pick`-th reply, taken modulo the number of replies.
- Unicode is modelled as ASCII only:
  - regex `\w` and `str.isspace` cover ASCII characters only;
  - `lower`, `upper` and `capitalize` map only ASCII letters.
- The `company_patterns` regular expressions are modelled by what `re.search` decides. Each of the four keyword
  patterns is a literal step sequence separated by `\s+` and followed by a word character (`Intent.ChainAt`); the
  fifth, `^(\w+[\w\s]*)$`, is a whole-line test (`Intent.WholeLine`). Capture groups are not modelled, because the
  source never reads them.
- Agent.CompanyResearchAgent.HandleClarification: when a name is found, the model does not assign the stripped
  turn to `current_company` before the research handler runs. On every path where a name is found, the handler
  overwrites that field anyway. The observable outcome is the same.
- Agent.CompanyResearchAgent.HandleEditRequest: its precondition asks for a non-empty plan. This is the only case
  in which `process_input` routes a turn to it (see `Intent.GuardedIntents`).
- Agent.CompanyResearchAgent.CompleteEdit, RegenerateSection, EnhanceSection and ApplyEdit: their preconditions
  ask for the editing state with the pending section set. `_handle_edit_request` establishes exactly that before
  calling them.
- Domain.Section: plan keys are modelled as an enumeration of the nine keys. Every plan the agent holds is
  therefore empty or holds all nine (`Agent.PlanMap`), and the pending edit always names a key that is present.
  The source's string keys are left out.
- `conversation_history` is only appended to. Nothing in the core reads it, so no property beyond the append is
  stated.
