/**
 * What one research run and one plan composition compute
 * (`_perform_research`, `_generate_account_plan`), as functions of the
 * collaborators' answers. The agent's methods are proved to produce exactly
 * these values.
 */
module Research {
  import opened Wrappers
  import opened Text
  import opened Domain

  /** The four fixed sub-queries, in the order they are issued. */
  function Queries(name: string): (qs: seq<string>)
    ensures |qs| == 4
  {
    [ name + " company overview products services",
      name + " leadership team executives",
      name + " recent news announcements",
      name + " challenges problems issues" ]
  }

  /** `data/context.json` after an extraction call that did not raise. */
  function AfterExtract(files: DataFiles, o: ExtractOutcome): (f: DataFiles)
    ensures f.contextTxt == files.contextTxt
  {
    if o.Extracted? then files.(contextJson := Some(o.records)) else files
  }

  /** The records the read of `data/context.json` adds: all of them, or
      none when the read fails and the bare `except` passes. */
  function ReadBack(files: DataFiles): seq<Record> {
    if files.contextJson.Some? then files.contextJson.value else []
  }

  /** Outcome of the query loop: every record read and the files left
      behind, or the message of the exception that stopped the loop, how
      many queries were issued, and the files left behind. */
  datatype Gathered =
    | Gathered(records: seq<Record>, files: DataFiles)
    | GatherFailed(message: string, attempted: nat, files: DataFiles)

  /** The query loop, defined on its last query so that it follows the loop
      step by step: each extraction may overwrite `data/context.json`, the
      loop then reads that file back, and an exception ends the run. */
  function Gather(extract: string -> ExtractOutcome, files: DataFiles, qs: seq<string>): (g: Gathered)
    ensures g.GatherFailed? ==> 1 <= g.attempted <= |qs|
    decreases |qs|
  {
    if qs == [] then Gathered([], files)
    else
      match Gather(extract, files, qs[..|qs| - 1])
      case GatherFailed(m, n, f) => GatherFailed(m, n, f)
      case Gathered(rs, f) =>
        var o := extract(qs[|qs| - 1]);
        if o.ExtractRaised? then GatherFailed(o.message, |qs|, f)
        else Gathered(rs + ReadBack(AfterExtract(f, o)), AfterExtract(f, o))
  }

  /** Reference definition, front to back: the files after each query in turn. */
  function FilesAfter(extract: string -> ExtractOutcome, files: DataFiles, qs: seq<string>): DataFiles
    decreases |qs|
  {
    if qs == [] then files else FilesAfter(extract, AfterExtract(files, extract(qs[0])), qs[1..])
  }

  /** Reference definition, front to back: what each query's read returns,
      in order. Every record read was either in `data/context.json` before
      the run or returned by one of the run's extractions. */
  function AllRecords(extract: string -> ExtractOutcome, files: DataFiles, qs: seq<string>): (r: seq<Record>)
    ensures forall x :: x in r ==>
      x in ReadBack(files) || exists k :: 0 <= k < |qs| && extract(qs[k]).Extracted? && x in extract(qs[k]).records
    decreases |qs|
  {
    if qs == [] then []
    else
      var f := AfterExtract(files, extract(qs[0]));
      var rest := AllRecords(extract, f, qs[1..]);
      assert forall x :: x in ReadBack(f) + rest ==>
        x in ReadBack(files) || exists k :: 0 <= k < |qs| && extract(qs[k]).Extracted? && x in extract(qs[k]).records
      by {
        forall x | x in rest && x !in ReadBack(f)
          ensures exists k :: 0 <= k < |qs| && extract(qs[k]).Extracted? && x in extract(qs[k]).records
        {
          var k :| 0 <= k < |qs[1..]| && extract(qs[1..][k]).Extracted? && x in extract(qs[1..][k]).records;
          assert qs[1..][k] == qs[k + 1];
        }
      }
      ReadBack(f) + rest
  }

  predicate NoneRaised(extract: string -> ExtractOutcome, qs: seq<string>) {
    forall k :: 0 <= k < |qs| ==> !extract(qs[k]).ExtractRaised?
  }

  /** One more query: its extraction acts on the files the earlier ones
      left, and its read appends what the file then holds. */
  lemma {:induction false} AllRecordsSnoc(extract: string -> ExtractOutcome, files: DataFiles, qs: seq<string>, q: string)
    ensures FilesAfter(extract, files, qs + [q]) == AfterExtract(FilesAfter(extract, files, qs), extract(q))
    ensures AllRecords(extract, files, qs + [q]) ==
      AllRecords(extract, files, qs) + ReadBack(AfterExtract(FilesAfter(extract, files, qs), extract(q)))
    decreases |qs|
  {
    if qs == [] {
      assert qs + [q] == [q];
    } else {
      assert (qs + [q])[1..] == qs[1..] + [q];
      AllRecordsSnoc(extract, AfterExtract(files, extract(qs[0])), qs[1..], q);
    }
  }

  /** When no extraction call raises, the run yields, in order, what each
      read of `data/context.json` returned, and leaves the files as the
      extractions in turn left them. */
  lemma {:induction false} GatherConcatenates(extract: string -> ExtractOutcome, files: DataFiles, qs: seq<string>)
    requires NoneRaised(extract, qs)
    ensures Gather(extract, files, qs) == Gathered(AllRecords(extract, files, qs), FilesAfter(extract, files, qs))
    decreases |qs|
  {
    if qs != [] {
      var init := qs[..|qs| - 1];
      GatherConcatenates(extract, files, init);
      assert init + [qs[|qs| - 1]] == qs;
      AllRecordsSnoc(extract, files, init, qs[|qs| - 1]);
    }
  }

  /** Once a prefix of the queries has failed, the whole run has failed the same way. */
  lemma {:induction false} GatherFailureSticks(extract: string -> ExtractOutcome, files: DataFiles, qs: seq<string>, n: nat)
    requires n <= |qs| && Gather(extract, files, qs[..n]).GatherFailed?
    ensures Gather(extract, files, qs) == Gather(extract, files, qs[..n])
    decreases |qs|
  {
    if n < |qs| {
      var init := qs[..|qs| - 1];
      assert init[..n] == qs[..n];
      GatherFailureSticks(extract, files, init, n);
    } else {
      assert qs[..n] == qs;
    }
  }

  /** The first extraction call that raises ends the run with its message,
      after exactly the queries up to and including it, with the files as
      the queries before it left them. */
  lemma GatherStopsAtFirstRaise(extract: string -> ExtractOutcome, files: DataFiles, qs: seq<string>, k: nat)
    requires k < |qs| && extract(qs[k]).ExtractRaised?
    requires NoneRaised(extract, qs[..k])
    ensures Gather(extract, files, qs) == GatherFailed(extract(qs[k]).message, k + 1, FilesAfter(extract, files, qs[..k]))
  {
    GatherConcatenates(extract, files, qs[..k]);
    assert qs[..k + 1][..k] == qs[..k];
    GatherFailureSticks(extract, files, qs, k + 1);
  }

  /** `data/context.json` holds the records of the last extraction that
      wrote it: later queries that found no URL leave it as it was. */
  lemma {:induction false} LastWriteWins(extract: string -> ExtractOutcome, files: DataFiles, qs: seq<string>, k: nat)
    requires k < |qs| && extract(qs[k]).Extracted?
    requires forall j :: k < j < |qs| ==> extract(qs[j]).NoSources?
    ensures FilesAfter(extract, files, qs).contextJson == Some(extract(qs[k]).records)
    decreases |qs|
  {
    var init := qs[..|qs| - 1];
    assert init + [qs[|qs| - 1]] == qs;
    AllRecordsSnoc(extract, files, init, qs[|qs| - 1]);
    if k < |qs| - 1 {
      assert init[k] == qs[k];
      LastWriteWins(extract, files, init, k);
    }
  }

  /** A query that finds no URL writes nothing, and its read returns again
      whatever `data/context.json` already held, from this run or an earlier one. */
  lemma NoSourcesRereads(extract: string -> ExtractOutcome, files: DataFiles, qs: seq<string>, q: string)
    requires extract(q).NoSources?
    ensures AllRecords(extract, files, qs + [q]) == AllRecords(extract, files, qs) + ReadBack(FilesAfter(extract, files, qs))
  {
    AllRecordsSnoc(extract, files, qs, q);
  }

  /** Extraction never touches `data/context.txt`. */
  lemma {:induction false} ExtractionKeepsSummaryFile(extract: string -> ExtractOutcome, files: DataFiles, qs: seq<string>)
    ensures FilesAfter(extract, files, qs).contextTxt == files.contextTxt
    decreases |qs|
  {
    if qs != [] {
      ExtractionKeepsSummaryFile(extract, AfterExtract(files, extract(qs[0])), qs[1..]);
    }
  }

  /** The extraction calls of a run that issued `qs`, in order. */
  function ExtractCalls(qs: seq<string>): seq<Call>
    decreases |qs|
  {
    if qs == [] then [] else ExtractCalls(qs[..|qs| - 1]) + [ExtractCall(qs[|qs| - 1])]
  }

  /** The files after `summarize_context`: it writes `data/context.txt`
      only for a readable, non-empty `data/context.json`, and only when it
      does not fail. */
  function AfterSummarize(summarize: seq<Record> -> Option<string>, files: DataFiles): (f: DataFiles)
    ensures f.contextJson == files.contextJson
  {
    if files.contextJson.Some? && files.contextJson.value != [] && summarize(files.contextJson.value).Some?
    then files.(contextTxt := summarize(files.contextJson.value))
    else files
  }

  /** `context_summary` after `data/context.txt` is read: the fallback text when the read fails. */
  function SummaryRead(files: DataFiles): string {
    if files.contextTxt.Some? then files.contextTxt.value else "No summary available"
  }

  /** The summary of a run covers only the records of its last extraction
      that wrote `data/context.json`, not all the records gathered. */
  lemma SummaryOfLastWrite(extract: string -> ExtractOutcome, summarize: seq<Record> -> Option<string>,
                           files: DataFiles, qs: seq<string>, k: nat)
    requires k < |qs| && extract(qs[k]).Extracted?
    requires forall j :: k < j < |qs| ==> extract(qs[j]).NoSources?
    requires extract(qs[k]).records != [] && summarize(extract(qs[k]).records).Some?
    ensures SummaryRead(AfterSummarize(summarize, FilesAfter(extract, files, qs))) == summarize(extract(qs[k]).records).value
  {
    LastWriteWins(extract, files, qs, k);
  }

  /** When the summariser writes nothing, the summary read is the one an
      earlier run left in `data/context.txt`, or the fallback text. */
  lemma StaleSummary(extract: string -> ExtractOutcome, summarize: seq<Record> -> Option<string>,
                     files: DataFiles, qs: seq<string>)
    requires var f := FilesAfter(extract, files, qs);
      f.contextJson.None? || f.contextJson.value == [] || summarize(f.contextJson.value).None?
    ensures SummaryRead(AfterSummarize(summarize, FilesAfter(extract, files, qs))) == SummaryRead(files)
  {
    ExtractionKeepsSummaryFile(extract, files, qs);
  }

  const ProfessionalStyle: string :=
    "Write in a professional business style with clear sections and actionable insights."

  /** The generation instruction for one section of a new plan. */
  function SectionQuery(company: string, s: Section): string {
    "Based on the research about " + company + ", write the " + s.Phrase() +
    " section for an account plan. " + ProfessionalStyle
  }

  /** A section's stored text: the generated text, or the failure placeholder. */
  function SectionText(o: GenOutcome): string {
    match o
    case Generated(t) => t
    case GenRaised(m) => "[Section generation failed: " + m + "]"
  }

  /** The plan `_generate_account_plan` composes: one generation per
      section, so it has all nine keys. */
  function ComposePlan(generate: (string, string) -> GenOutcome, summary: string, company: string): (plan: map<Section, string>)
    ensures FullPlan(plan)
  {
    PlanSectionsComplete();
    map s: Section | s in PlanSections :: SectionText(generate(summary, SectionQuery(company, s)))
  }

  /** A composed plan has all nine keys; a section whose generation raised
      holds the placeholder with the exception message, any other the text
      generated for its own instruction. */
  lemma ComposePlanShape(generate: (string, string) -> GenOutcome, summary: string, company: string, s: Section)
    ensures FullPlan(ComposePlan(generate, summary, company))
    ensures var o := generate(summary, SectionQuery(company, s));
      ComposePlan(generate, summary, company)[s] ==
        if o.GenRaised? then "[Section generation failed: " + o.message + "]" else o.text
  {
    PlanSectionsComplete();
  }

  /** A dictionary holding, for every section, the text generated for that
      section's own instruction is the composed plan. */
  lemma ComposedBySection(generate: (string, string) -> GenOutcome, summary: string, company: string,
                          sections: map<Section, string>)
    requires forall s: Section :: s in sections && sections[s] == SectionText(generate(summary, SectionQuery(company, s)))
    ensures sections == ComposePlan(generate, summary, company)
  {
    var plan := ComposePlan(generate, summary, company);
    PlanSectionsComplete();
    assert sections.Keys == plan.Keys;
  }

  /** The generation calls of one composition, one per section in order. */
  function PlanCalls(summary: string, company: string, secs: seq<Section>): seq<Call>
    decreases |secs|
  {
    if secs == [] then []
    else PlanCalls(summary, company, secs[..|secs| - 1]) + [GenerateCall(summary, SectionQuery(company, secs[|secs| - 1]))]
  }

  /** The file name the new plan is saved under. */
  function PlanFileName(company: string, stamp: string): string {
    "account_plan_" + Replace(company, " ", "_") + "_" + stamp + ".md"
  }

  /** The section loop of `_generate_account_plan`: the dictionary gains
      the nine keys in plan order, one generation call per section; the
      calls are returned as `made`. */
  method GenerateSections(generate: (string, string) -> GenOutcome, summary: string, company: string)
      returns (sections: map<Section, string>, ghost made: seq<Call>)
    ensures sections == ComposePlan(generate, summary, company)
    ensures FullPlan(sections)
    ensures made == PlanCalls(summary, company, PlanSections)
  {
    sections := map[];
    made := [];
    var i := 0;
    while i < |PlanSections|
      invariant 0 <= i <= |PlanSections|
      invariant forall s: Section :: s in sections <==> PlanIndex(s) < i
      invariant forall s :: s in sections ==> sections[s] == SectionText(generate(summary, SectionQuery(company, s)))
      invariant made == PlanCalls(summary, company, PlanSections[..i])
    {
      var section := PlanSections[i];
      PlanIndexAt(i);
      assert PlanSections[..i + 1][..i] == PlanSections[..i];
      var query := SectionQuery(company, section);
      made := made + [GenerateCall(summary, query)];
      sections := sections[section := SectionText(generate(summary, query))];
      i := i + 1;
    }
    assert PlanSections[..i] == PlanSections;
    ComposedBySection(generate, summary, company, sections);
  }

  /** The query loop of `_perform_research`: each extraction may overwrite
      `data/context.json`, which is then read back and appended, and the
      first extraction that raises ends the loop. The extraction calls made
      are returned as `made`. */
  method RunQueries(extract: string -> ExtractOutcome, files: DataFiles, queries: seq<string>)
      returns (g: Gathered, ghost made: seq<Call>)
    ensures g == Gather(extract, files, queries)
    ensures made == ExtractCalls(if g.GatherFailed? then queries[..g.attempted] else queries)
  {
    var allData: seq<Record> := [];
    var disk := files;
    made := [];
    var i := 0;
    while i < |queries|
      invariant 0 <= i <= |queries|
      invariant Gather(extract, files, queries[..i]) == Gathered(allData, disk)
      invariant made == ExtractCalls(queries[..i])
    {
      var query := queries[i];
      var outcome := extract(query);
      made := made + [ExtractCall(query)];
      assert queries[..i + 1][..i] == queries[..i];
      if outcome.ExtractRaised? {
        GatherFailureSticks(extract, files, queries, i + 1);
        return GatherFailed(outcome.message, i + 1, disk), made;
      }
      disk := AfterExtract(disk, outcome);
      if disk.contextJson.Some? {
        allData := allData + disk.contextJson.value;
      }
      i := i + 1;
    }
    assert queries[..i] == queries;
    g := Gathered(allData, disk);
  }
}
