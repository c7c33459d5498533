/**
 * The `fetch-jobs` command: the full names of every job, saved for later
 * suggestions, with the first few shown as examples split at their folder.
 */
module FetchJobs {
  import opened Wrappers
  import opened Strings
  import opened Seqs
  import opened JenkinsFolder
  import opened FullNames
  import FolderFixtures

  function FullNameOf(job: JobTreeItem): string {
    job.fullName
  }

  /** `jobItems.map(job => job.fullName)` over `getAllJobs`: the names saved, in traversal order. */
  function JobNames(server: Server): (r: seq<string>)
    ensures |r| == |GetAllJobs(server, "")|
    ensures forall i :: 0 <= i < |r| ==> r[i] == GetAllJobs(server, "")[i].fullName
  {
    Map(GetAllJobs(server, ""), FullNameOf)
  }

  /** Every saved name is the full name of a job of the traversal, and every such job is saved. */
  lemma SavedNamesAreJobs(server: Server)
    ensures forall i :: 0 <= i < |JobNames(server)| ==>
      exists x :: x in Traverse(server, "") && x.kind == Job && x.fullName == JobNames(server)[i]
    ensures forall x :: x in Traverse(server, "") && x.kind == Job ==> x.fullName in JobNames(server)
  {
    var jobs := GetAllJobs(server, "");
    var names := JobNames(server);
    forall i | 0 <= i < |names|
      ensures exists x :: x in Traverse(server, "") && x.kind == Job && x.fullName == names[i]
    {
      assert jobs[i] in Traverse(server, "") && jobs[i].kind == Job;
    }
    forall x | x in Traverse(server, "") && x.kind == Job
      ensures x.fullName in names
    {
      var i :| 0 <= i < |jobs| && jobs[i] == x;
      assert names[i] == x.fullName;
    }
  }

  /** How many names are shown as examples. */
  const ExampleCount: nat := 5

  /** `jobNames.slice(0, 5)`. */
  function Examples(names: seq<string>): (r: seq<string>)
    ensures |r| == if |names| < ExampleCount then |names| else ExampleCount
    ensures forall i :: 0 <= i < |r| ==> r[i] == names[i]
  {
    if |names| <= ExampleCount then names else names[..ExampleCount]
  }

  /** One example: a folder and the job's own name, or a root job's name. */
  datatype Example = InFolder(folder: string, leaf: string) | AtRoot(name: string)

  /** The example line of one name: split at `/` when there is more than one segment. */
  function ExampleOf(name: string): (r: Example)
    ensures r.InFolder? <==> '/' in name
    ensures r.InFolder? ==> r.folder + "/" + r.leaf == name && '/' !in r.leaf
    ensures r.AtRoot? ==> r.name == name
  {
    MoreThanOneSegment(name);
    if |Split(name, '/')| > 1 then
      ParentThenLeaf(name);
      InFolder(ParentFolder(name), LeafName(name))
    else AtRoot(name)
  }

  /** What `fetch-jobs` prints after saving: the count, the examples and how many more there are. */
  datatype FetchReport = FetchReport(saved: seq<string>, examples: seq<Example>, more: Option<nat>)

  function FetchReportOf(names: seq<string>): (r: FetchReport)
    ensures r.saved == names
    ensures |r.examples| == if |names| < ExampleCount then |names| else ExampleCount
    ensures forall i :: 0 <= i < |r.examples| ==> r.examples[i] == ExampleOf(names[i])
    ensures r.more.Some? <==> |names| > ExampleCount
    ensures r.more.Some? ==> r.more.value + ExampleCount == |names|
  {
    FetchReport(names, Map(Examples(names), ExampleOf),
      if |names| > ExampleCount then Some(|names| - ExampleCount) else None)
  }

  /** `fetchJobs` against a server. */
  function FetchJobs(server: Server): FetchReport {
    FetchReportOf(JobNames(server))
  }

  /** On the fixture tree the saved names are the four jobs' full names, the folder left out. */
  lemma FixtureNames()
    ensures JobNames(FolderFixtures.Fixture)
         == ["test-job-1", "backend/api-service", "backend/database-migration", "frontend-build"]
  {
    FolderFixtures.FixtureJobs();
  }
}
