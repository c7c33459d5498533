/**
 * The `search` command: the jobs whose name or full name contains a term, one
 * entry per job, and for long result lists a count of matches per parent folder.
 */
module SearchJobs {
  import opened Wrappers
  import opened Strings
  import opened Seqs
  import opened Styling
  import opened JenkinsFolder
  import opened FullNames
  import ListJobs

  // ---------------------------------------------------------------------------
  // Grouping by parent folder

  function ParentOf(job: JobTreeItem): string {
    ParentFolder(job.fullName)
  }

  /** The parent folder of every job, in order. */
  function Parents(jobs: seq<JobTreeItem>): (r: seq<string>)
    ensures |r| == |jobs|
  {
    Map(jobs, ParentOf)
  }

  /** `groupJobsByParentFolder`: the `forEach` that counts the jobs of each parent folder. */
  method GroupJobsByParentFolder(jobs: seq<JobTreeItem>) returns (groups: map<string, nat>)
    ensures groups == Tally(Parents(jobs))
  {
    groups := map[];
    for i := 0 to |jobs|
      invariant groups == Tally(Map(jobs[..i], ParentOf))
    {
      var parts := Split(jobs[i].fullName, '/');
      var parentFolder := if |parts| > 1 then Join(parts[..|parts| - 1], '/') else "";
      assert parentFolder == ParentOf(jobs[i]);
      MapPrefix(jobs, ParentOf, i);
      TallySnoc(Map(jobs[..i], ParentOf), parentFolder);
      groups := groups[parentFolder := (if parentFolder in groups then groups[parentFolder] else 0) + 1];
    }
    assert jobs[..|jobs|] == jobs;
  }

  /**
   * Every job's parent folder is a group, every group counts the jobs in it, which are at
   * least one, and together the groups count every job once.
   */
  lemma GroupCounts(jobs: seq<JobTreeItem>)
    ensures forall i :: 0 <= i < |jobs| ==> Parents(jobs)[i] in Tally(Parents(jobs))
    ensures forall f :: f in Tally(Parents(jobs)) ==> Tally(Parents(jobs))[f] == multiset(Parents(jobs))[f] > 0
    ensures SumValues(Tally(Parents(jobs))) == |jobs|
  {
    var ps := Parents(jobs);
    TallyCounts(ps);
    TallySum(ps);
  }

  /** A job found at the top level of a server with slash-free names is counted under the root. */
  lemma RootJobsGroupAtRoot(server: Server, x: JobTreeItem)
    requires SlashFreeNames(server) && x in Traverse(server, "") && x.level == 0
    ensures ParentOf(x) == ""
  {
    TraversePlaced(server, "");
    CountCharZero(x.fullName, '/');
    RootName(x.fullName);
  }

  /** `folder || "Raíz"`: how a group is named in the summary. */
  function GroupLabel(folder: string): (r: string)
    ensures r == "Raíz" <==> folder == "" || folder == "Raíz"
    ensures folder != "" ==> r == folder
  {
    if folder == "" then "Raíz" else folder
  }

  // ---------------------------------------------------------------------------
  // The command

  /** One printed job: its main line and, when the full name differs from the name, its location. */
  datatype Entry = Entry(main: Line, location: Option<Line>)

  /**
   * The entry of one job. `highlight(text, term)` stands for the highlighting of the term in
   * the text, which is not part of this model.
   */
  function EntryFor(job: JobTreeItem, term: string, highlight: (string, string) -> string): (e: Entry)
    ensures e.location.Some? <==> job.fullName != job.name
    ensures Text(e.main) == ListJobs.Indent(job.level) + "🔹 " + highlight(job.name, term)
                            + ListJobs.JobStatus(job.color).text
    ensures e.location.Some? ==>
      Text(e.location.value) == ListJobs.Indent(job.level) + "   📁 " + highlight(job.fullName, term)
  {
    var indent := ListJobs.Indent(job.level);
    var head := Segment(Plain, indent + "🔹 " + highlight(job.name, term));
    var status := ListJobs.JobStatus(job.color);
    TextOfTwo(head, status);
    var where := [Segment(Plain, indent + "   📁 "), Segment(Gray, highlight(job.fullName, term))];
    TextOfTwo(where[0], where[1]);
    Entry([head, status], if job.fullName != job.name then Some(where) else None)
  }

  /** Above this many matches the per-folder summary is printed. */
  const SummaryThreshold: nat := 10

  /** What `search` prints: a warning, or the entries and the optional per-folder summary. */
  datatype SearchReport =
    | NoMatches(term: string)
    | Found(count: nat, entries: seq<Entry>, summary: Option<map<string, nat>>)

  function ReportFor(matching: seq<JobTreeItem>, term: string, highlight: (string, string) -> string)
    : (r: SearchReport)
    ensures r.NoMatches? <==> matching == []
    ensures r.Found? ==> r.count == |matching| && |r.entries| == |matching|
    ensures r.Found? ==> forall i :: 0 <= i < |matching| ==> r.entries[i] == EntryFor(matching[i], term, highlight)
    ensures r.Found? ==> (r.summary.Some? <==> |matching| > SummaryThreshold)
    ensures r.Found? && r.summary.Some? ==> r.summary.value == Tally(Parents(matching))
  {
    if matching == [] then NoMatches(term)
    else
      Found(|matching|, Map(matching, job => EntryFor(job, term, highlight)),
        if |matching| > SummaryThreshold then Some(Tally(Parents(matching))) else None)
  }

  /** `searchJobs` against a server: the report on `findJobsByName`. */
  function SearchJobs(server: Server, term: string, highlight: (string, string) -> string): (r: SearchReport)
    ensures r.NoMatches? <==> FindJobsByName(server, term) == []
    ensures r.Found? ==> r.count == |FindJobsByName(server, term)|
  {
    ReportFor(FindJobsByName(server, term), term, highlight)
  }
}
