/**
 * The Jenkins item tree: the depth-first walk of nested folders, the derived
 * filters (jobs only, bounded depth, search) and the rewriting of a slash-joined
 * full name into the nested `/job/<segment>` API path.
 *
 * The server is a finite map from a folder path to the `jobs` array its
 * listing endpoint returns; a path that is absent, or maps to `None`, stands for
 * a listing call that failed or a response without `jobs`.
 */
module JenkinsFolder {
  import opened Wrappers
  import opened Strings
  import opened Seqs

  /** Jenkins never lists an item with an empty name. */
  type ItemName = s: string | s != [] witness "x"

  /** An entry of a listing's `jobs` array. */
  datatype RawItem = RawItem(name: ItemName, url: string, cls: string, color: Option<string>)

  datatype ItemType = Job | Folder

  /** One node of the flattened tree. */
  datatype JobTreeItem = JobTreeItem(
    name: string, fullName: string, kind: ItemType, url: string, level: nat, color: Option<string>)

  type Server = map<string, Option<seq<RawItem>>>

  /** What `GET buildApiUrl(path)` yields: the `jobs` array, or `None` when the call fails or has none. */
  function Listing(server: Server, path: string): Option<seq<RawItem>> {
    if path in server then server[path] else None
  }

  // ---------------------------------------------------------------------------
  // Paths and API URLs

  /** `buildApiUrl`: the listing endpoint of a folder path. */
  function BuildApiUrl(path: string): string {
    if path == "" then "/api/json" else "/job/" + ReplaceChar(path, '/', "/job/") + "/api/json"
  }

  /** The `/job/` prefixes the rewriting produces, one per segment. */
  function JobPrefixes(segments: seq<string>): string
    decreases |segments|
  {
    if segments == [] then "" else "/job/" + segments[0] + JobPrefixes(segments[1..])
  }

  /** For a path made of slash-free segments, every segment becomes `/job/<segment>`. */
  lemma {:induction false} BuildApiUrlSegments(segments: seq<string>)
    requires |segments| >= 1 && segments[0] != ""
    requires forall i :: 0 <= i < |segments| ==> '/' !in segments[i]
    ensures BuildApiUrl(Join(segments, '/')) == JobPrefixes(segments) + "/api/json"
  {
    RewriteJoin(segments);
  }

  lemma {:induction false} RewriteJoin(segments: seq<string>)
    requires |segments| >= 1
    requires forall i :: 0 <= i < |segments| ==> '/' !in segments[i]
    ensures "/job/" + ReplaceChar(Join(segments, '/'), '/', "/job/") == JobPrefixes(segments)
    decreases |segments|
  {
    var first := segments[0];
    ReplaceCharAbsent(first, '/', "/job/");
    if |segments| == 1 {
      assert JobPrefixes(segments[1..]) == "";
    } else {
      var rest := segments[1..];
      RewriteJoin(rest);
      ReplaceCharConcat(first, "/" + Join(rest, '/'), '/', "/job/");
      ReplaceCharConcat("/", Join(rest, '/'), '/', "/job/");
      assert first + "/" + Join(rest, '/') == first + ("/" + Join(rest, '/'));
    }
  }

  /** A path of three segments becomes three nested `/job/` segments. */
  lemma ApiUrlOfThreeSegments(a: string, b: string, c: string)
    requires a != "" && '/' !in a && '/' !in b && '/' !in c
    ensures BuildApiUrl(a + "/" + b + "/" + c) == "/job/" + a + "/job/" + b + "/job/" + c + "/api/json"
  {
    var segments := [a, b, c];
    assert segments[1..] == [b, c] && segments[1..][1..] == [c];
    assert Join([b, c], '/') == b + "/" + c;
    assert Join(segments, '/') == a + "/" + b + "/" + c;
    assert JobPrefixes([c]) == "/job/" + c by { assert [c][1..] == []; }
    assert JobPrefixes(segments) == "/job/" + a + "/job/" + b + "/job/" + c;
    BuildApiUrlSegments(segments);
  }

  /** Undoes the rewriting: every `/job/` back to `/`; `None` if a `/` is not followed by `job/`. */
  function UnrewriteSlashes(s: string): Option<string>
    decreases |s|
  {
    if s == [] then Some("")
    else if s[0] == '/' then
      if StartsWith(s, "/job/") then
        match UnrewriteSlashes(s[5..])
        case Some(rest) => Some("/" + rest)
        case None => None
      else None
    else
      match UnrewriteSlashes(s[1..])
      case Some(rest) => Some([s[0]] + rest)
      case None => None
  }

  /** Recovers the folder path from a listing URL. */
  function PathOfApiUrl(url: string): Option<string> {
    if url == "/api/json" then Some("")
    else if StartsWith(url, "/job/") && |url| >= 14 && EndsWith(url, "/api/json") then
      UnrewriteSlashes(url[5..|url| - 9])
    else None
  }

  lemma {:induction false} UnrewriteRewrite(p: string)
    ensures UnrewriteSlashes(ReplaceChar(p, '/', "/job/")) == Some(p)
    decreases |p|
  {
    if p != [] {
      UnrewriteRewrite(p[1..]);
      var tail := ReplaceChar(p[1..], '/', "/job/");
      var s := ReplaceChar(p, '/', "/job/");
      if p[0] == '/' {
        assert s == "/job/" + tail;
        assert StartsWith(s, "/job/");
        assert s[5..] == tail;
        assert "/" + p[1..] == p;
      } else {
        assert s == [p[0]] + tail;
        assert s[1..] == tail;
        assert [p[0]] + p[1..] == p;
      }
    }
  }

  /** Different folder paths are listed at different URLs: the path can be read back from its URL. */
  lemma ApiUrlRoundTrip(path: string)
    ensures PathOfApiUrl(BuildApiUrl(path)) == Some(path)
  {
    if path != "" {
      var mid := ReplaceChar(path, '/', "/job/");
      var url := BuildApiUrl(path);
      assert |mid| >= 1;
      assert url[5..|url| - 9] == mid;
      assert url[..5] == "/job/";
      assert url[|url| - 9..] == "/api/json";
      UnrewriteRewrite(path);
    }
  }

  /** The detail URL `getJobInfo` requests. */
  function JobInfoUrl(fullName: string): string {
    "/job/" + ReplaceChar(fullName, '/', "/job/") + "/api/json"
  }

  /** The detail URL `getLastBuild` requests. */
  function LastBuildUrl(fullName: string): string {
    "/job/" + ReplaceChar(fullName, '/', "/job/") + "/lastBuild/api/json"
  }

  /** Job detail and folder listing share one URL, except for the empty name. */
  lemma JobInfoUrlIsListingUrl(fullName: string)
    ensures fullName != "" ==> JobInfoUrl(fullName) == BuildApiUrl(fullName)
    ensures JobInfoUrl("") == "/job//api/json" != BuildApiUrl("")
  {
  }

  /** A job's last build is requested below the job's own URL: one `/job/` per path segment. */
  lemma LastBuildUrlSegments(segments: seq<string>)
    requires segments != [] && forall i :: 0 <= i < |segments| ==> '/' !in segments[i]
    ensures LastBuildUrl(Join(segments, '/')) == JobPrefixes(segments) + "/lastBuild/api/json"
    ensures JobInfoUrl(Join(segments, '/')) == JobPrefixes(segments) + "/api/json"
  {
    RewriteJoin(segments);
  }

  datatype FetchError = JobInfoError(jobFullName: string) | LastBuildError(jobFullName: string)

  /** `getJobInfo`: the detail object at the job's URL, or an error naming the job. */
  function GetJobInfo<D>(details: map<string, D>, jobFullName: string): (r: Result<D, FetchError>)
    ensures r.Success? <==> JobInfoUrl(jobFullName) in details
    ensures r.Success? ==> r.value == details[JobInfoUrl(jobFullName)]
    ensures r.Failure? ==> r.error == JobInfoError(jobFullName)
  {
    var url := JobInfoUrl(jobFullName);
    if url in details then Success(details[url]) else Failure(JobInfoError(jobFullName))
  }

  /** `getLastBuild`: the last-build object at the job's URL, or an error naming the job. */
  function GetLastBuild<D>(builds: map<string, D>, jobFullName: string): (r: Result<D, FetchError>)
    ensures r.Success? <==> LastBuildUrl(jobFullName) in builds
    ensures r.Success? ==> r.value == builds[LastBuildUrl(jobFullName)]
    ensures r.Failure? ==> r.error == LastBuildError(jobFullName)
  {
    var url := LastBuildUrl(jobFullName);
    if url in builds then Success(builds[url]) else Failure(LastBuildError(jobFullName))
  }

  // ---------------------------------------------------------------------------
  // Classification and one item

  const FolderClasses: seq<string> := [
    "com.cloudbees.hudson.plugins.folder.Folder",
    "jenkins.branch.OrganizationFolder",
    "org.jenkinsci.plugins.workflow.multibranch.WorkflowMultiBranchProject",
    "hudson.model.Folder"
  ]

  /** `isFolder`: exact membership in the list of container classes. */
  predicate IsFolder(cls: string) {
    cls in FolderClasses
  }

  /** Membership is exact: a class name that merely contains a folder class is a job. */
  lemma IsFolderExact()
    ensures IsFolder("hudson.model.Folder")
    ensures !IsFolder("hudson.model.FolderProperty")
    ensures !IsFolder("org.jenkinsci.plugins.workflow.job.WorkflowJob")
    ensures !IsFolder("")
  {
  }

  /** The `fullName` of an item listed under `parentPath`. */
  function ChildPath(parentPath: string, name: string): (r: string)
    ensures EndsWith(r, name)
    ensures parentPath != "" ==> StartsWith(r, parentPath + "/")
  {
    if parentPath == "" then name else parentPath + "/" + name
  }

  /** A listed item's full name is longer than its parent's path, so each folder is visited below its parent. */
  lemma ChildPathLonger(parentPath: string, name: ItemName)
    ensures |ChildPath(parentPath, name)| > |parentPath|
  {
  }

  /** An item with an empty name at the root would get the root's own path, level and listing URL. */
  lemma EmptyNameRelistsRoot()
    ensures ChildPath("", "") == ""
    ensures ChildLevel(ChildPath("", "")) == ChildLevel("")
    ensures BuildApiUrl(ChildPath("", "")) == BuildApiUrl("")
  {
  }

  /** Below the root, the full name is the parent path, a `/` and the name. */
  lemma ChildPathBelow(parentPath: string, name: string)
    requires parentPath != ""
    ensures ChildPath(parentPath, name) == parentPath + "/" + name
  {
  }

  /** The `level` of an item listed under `parentPath`: the number of `/`-segments of that path. */
  function ChildLevel(parentPath: string): (r: nat)
    ensures parentPath != "" ==> r == CountChar(parentPath, '/') + 1
  {
    SplitCount(parentPath, '/');
    if parentPath == "" then 0 else |Split(parentPath, '/')|
  }

  /** The tree node `processJenkinsItem` builds for one listed item. */
  function MakeItem(item: RawItem, parentPath: string): JobTreeItem {
    JobTreeItem(
      item.name, ChildPath(parentPath, item.name),
      if IsFolder(item.cls) then Folder else Job,
      item.url, ChildLevel(parentPath), item.color)
  }

  // ---------------------------------------------------------------------------
  // The traversal, as a specification

  /** The server paths at least as long as `n`: what a walk below a path of length `n` can still list. */
  ghost function KeysFrom(server: Server, n: nat): set<string> {
    set k | k in server.Keys && |k| >= n
  }

  lemma DeeperHasFewerKeys(server: Server, parentPath: string, child: string)
    requires parentPath in server && |child| > |parentPath|
    ensures KeysFrom(server, |child|) < KeysFrom(server, |parentPath|)
  {
    assert parentPath in KeysFrom(server, |parentPath|);
  }

  /** `getAllJobsRecursive(path)`: the items below `path`, depth-first, each folder before its contents. */
  function Traverse(server: Server, path: string): seq<JobTreeItem>
    decreases KeysFrom(server, |path|), 1, 0
  {
    match Listing(server, path)
    case None => []
    case Some(jobs) => Children(server, path, jobs)
  }

  /** The items produced by the loop over a listing, in listing order. */
  function Children(server: Server, path: string, jobs: seq<RawItem>): seq<JobTreeItem>
    requires path in server
    decreases KeysFrom(server, |path|), 0, |jobs|
  {
    if jobs == [] then []
    else Children(server, path, jobs[..|jobs| - 1]) + Subtree(server, jobs[|jobs| - 1], path)
  }

  /** `processJenkinsItem`: the item's node, then, for a folder, everything below it. */
  function Subtree(server: Server, item: RawItem, parentPath: string): seq<JobTreeItem>
    requires parentPath in server
    decreases KeysFrom(server, |parentPath|), 0, 0
  {
    var node := MakeItem(item, parentPath);
    if node.kind == Folder then
      DeeperHasFewerKeys(server, parentPath, node.fullName);
      [node] + Traverse(server, node.fullName)
    else [node]
  }

  // ---------------------------------------------------------------------------
  // The traversal as the source runs it: a loop that pushes, and recursion

  /** `getAllJobsRecursive`: a failed listing gives `[]`; otherwise each item's subtree is appended in turn. */
  method GetAllJobsRecursive(server: Server, path: string) returns (items: seq<JobTreeItem>)
    ensures items == Traverse(server, path)
    decreases KeysFrom(server, |path|), 1, 0
  {
    var response := Listing(server, path);
    if response.None? {
      return [];
    }
    var jobs := response.value;
    items := [];
    for i := 0 to |jobs|
      invariant items == Children(server, path, jobs[..i])
    {
      var processed := ProcessJenkinsItem(server, jobs[i], path);
      assert jobs[..i + 1][..i] == jobs[..i];
      items := items + processed;
    }
    assert jobs[..|jobs|] == jobs;
  }

  /** `processJenkinsItem`: the node, then the folder's own traversal. */
  method ProcessJenkinsItem(server: Server, item: RawItem, parentPath: string) returns (items: seq<JobTreeItem>)
    requires parentPath in server
    ensures items == Subtree(server, item, parentPath)
    decreases KeysFrom(server, |parentPath|), 0, 0
  {
    var currentItem := MakeItem(item, parentPath);
    items := [currentItem];
    if IsFolder(item.cls) {
      DeeperHasFewerKeys(server, parentPath, currentItem.fullName);
      var subItems := GetAllJobsRecursive(server, currentItem.fullName);
      items := items + subItems;
    }
  }

  // ---------------------------------------------------------------------------
  // What every produced item looks like

  /** No listed item has a `/` in its name (Jenkins refuses such names). */
  predicate SlashFreeNames(server: Server) {
    forall p :: p in server ==> SlashFreeListing(server[p])
  }

  predicate SlashFreeListing(listing: Option<seq<RawItem>>) {
    listing.Some? ==> forall i :: 0 <= i < |listing.value| ==> '/' !in listing.value[i].name
  }

  /**
   * An item produced below `path`: its full name lies under `path` and ends in its
   * short name, it is at least as deep as `path`'s children, and, when names are
   * slash-free, its level is the number of `/` in its full name.
   */
  predicate Placed(server: Server, r: JobTreeItem, path: string) {
    && (path != "" ==> StartsWith(r.fullName, path + "/"))
    && EndsWith(r.fullName, r.name)
    && r.level >= ChildLevel(path)
    && (SlashFreeNames(server) ==> r.level == CountChar(r.fullName, '/'))
  }

  lemma MakeItemPlaced(server: Server, item: RawItem, parentPath: string)
    requires parentPath in server && server[parentPath].Some? && item in server[parentPath].value
    ensures Placed(server, MakeItem(item, parentPath), parentPath)
  {
    if SlashFreeNames(server) {
      var jobs := server[parentPath].value;
      assert SlashFreeListing(server[parentPath]);
      var i :| 0 <= i < |jobs| && jobs[i] == item;
      assert '/' !in jobs[i].name;
      CountCharAbsent(item.name, '/');
      if parentPath != "" {
        CountCharConcat(parentPath + "/", item.name, '/');
        CountCharConcat(parentPath, "/", '/');
      }
    }
  }

  /** Anything placed under a child path is placed under its parent. */
  lemma PlacedUnderParent(server: Server, r: JobTreeItem, parentPath: string, name: ItemName)
    requires Placed(server, r, ChildPath(parentPath, name))
    ensures Placed(server, r, parentPath)
  {
    var child := ChildPath(parentPath, name);
    if parentPath != "" {
      StartsWithTrans(r.fullName, child + "/", child);
      StartsWithTrans(r.fullName, child, parentPath + "/");
      SplitCount(child, '/');
      CountCharConcat(parentPath + "/", name, '/');
      CountCharConcat(parentPath, "/", '/');
    }
  }

  lemma {:induction false} TraversePlaced(server: Server, path: string)
    ensures forall r :: r in Traverse(server, path) ==> Placed(server, r, path)
    decreases KeysFrom(server, |path|), 1, 0
  {
    match Listing(server, path)
    case None =>
    case Some(jobs) => ChildrenPlaced(server, path, jobs);
  }

  lemma {:induction false} ChildrenPlaced(server: Server, path: string, jobs: seq<RawItem>)
    requires path in server && server[path] == Some(jobs)
    ensures forall r :: r in Children(server, path, jobs) ==> Placed(server, r, path)
    decreases KeysFrom(server, |path|), 0, |jobs| + 1
  {
    ChildrenPlacedPrefix(server, path, jobs, |jobs|);
    assert jobs[..|jobs|] == jobs;
  }

  lemma {:induction false} ChildrenPlacedPrefix(server: Server, path: string, jobs: seq<RawItem>, n: nat)
    requires path in server && server[path] == Some(jobs) && n <= |jobs|
    ensures forall r :: r in Children(server, path, jobs[..n]) ==> Placed(server, r, path)
    decreases KeysFrom(server, |path|), 0, n
  {
    if n > 0 {
      ChildrenPlacedPrefix(server, path, jobs, n - 1);
      assert jobs[..n][..n - 1] == jobs[..n - 1];
      SubtreePlaced(server, jobs[n - 1], path);
    }
  }

  lemma {:induction false} SubtreePlaced(server: Server, item: RawItem, parentPath: string)
    requires parentPath in server && server[parentPath].Some? && item in server[parentPath].value
    ensures forall r :: r in Subtree(server, item, parentPath) ==> Placed(server, r, parentPath)
    decreases KeysFrom(server, |parentPath|), 0, 0
  {
    var node := MakeItem(item, parentPath);
    MakeItemPlaced(server, item, parentPath);
    if node.kind == Folder {
      DeeperHasFewerKeys(server, parentPath, node.fullName);
      TraversePlaced(server, node.fullName);
      forall r | r in Traverse(server, node.fullName)
        ensures Placed(server, r, parentPath)
      {
        PlacedUnderParent(server, r, parentPath, item.name);
      }
    }
  }

  // ---------------------------------------------------------------------------
  // Derived queries

  predicate IsJob(r: JobTreeItem) {
    r.kind == Job
  }

  /** `getAllJobs`: the traversal with the folders left out, in traversal order. */
  function GetAllJobs(server: Server, path: string): (r: seq<JobTreeItem>)
    ensures forall i :: 0 <= i < |r| ==> r[i].kind == Job && r[i] in Traverse(server, path)
    ensures forall x :: x in Traverse(server, path) && x.kind == Job ==> x in r
  {
    FilterMembers(Traverse(server, path), IsJob);
    Filter(Traverse(server, path), IsJob)
  }

  const DefaultMaxLevel: int := 2

  /** `getFolderStructure`: the whole traversal cut at a depth, in traversal order. */
  function GetFolderStructure(server: Server, maxLevel: int): (r: seq<JobTreeItem>)
    ensures forall i :: 0 <= i < |r| ==> r[i].level <= maxLevel && r[i] in Traverse(server, "")
    ensures forall x :: x in Traverse(server, "") && x.level <= maxLevel ==> x in r
  {
    var shallow := (x: JobTreeItem) => x.level <= maxLevel;
    FilterMembers(Traverse(server, ""), shallow);
    Filter(Traverse(server, ""), shallow)
  }

  predicate Matches(r: JobTreeItem, term: string) {
    Contains(ToLower(r.name), ToLower(term)) || Contains(ToLower(r.fullName), ToLower(term))
  }

  /** `findJobsByName`: the jobs whose name or full name contains the term, ignoring case. */
  function FindJobsByName(server: Server, term: string): (r: seq<JobTreeItem>)
    ensures forall i :: 0 <= i < |r| ==> r[i].kind == Job && Matches(r[i], term)
    ensures forall x :: x in GetAllJobs(server, "") && Matches(x, term) ==> x in r
  {
    var hit := (x: JobTreeItem) => Matches(x, term);
    FilterMembers(GetAllJobs(server, ""), hit);
    Filter(GetAllJobs(server, ""), hit)
  }

  /** Searching for the empty term finds every job. */
  lemma FindEverything(server: Server)
    ensures FindJobsByName(server, "") == GetAllJobs(server, "")
  {
    var jobs := GetAllJobs(server, "");
    forall i | 0 <= i < |jobs| ensures Matches(jobs[i], "") {
      ContainsEmpty(ToLower(jobs[i].name));
    }
    FilterAll(jobs, (x: JobTreeItem) => Matches(x, ""));
  }

  /** The case of the term does not matter. */
  lemma FindIgnoresCase(server: Server, term: string)
    ensures FindJobsByName(server, term) == FindJobsByName(server, ToLower(term))
  {
    ToLowerIdempotent(term);
    FilterSame(GetAllJobs(server, ""), (x: JobTreeItem) => Matches(x, term),
      (x: JobTreeItem) => Matches(x, ToLower(term)));
  }

  /**
   * Since a full name always ends in the short name, the name test adds nothing:
   * the search is the full-name test alone, so nested jobs also match on their folders.
   */
  lemma FindIsFullNameSearch(server: Server, term: string)
    ensures FindJobsByName(server, term)
         == Filter(GetAllJobs(server, ""), (x: JobTreeItem) => Contains(ToLower(x.fullName), ToLower(term)))
  {
    var jobs := GetAllJobs(server, "");
    TraversePlaced(server, "");
    forall i | 0 <= i < |jobs|
      ensures Matches(jobs[i], term) == Contains(ToLower(jobs[i].fullName), ToLower(term))
    {
      var x := jobs[i];
      assert Placed(server, x, "");
      var prefix := x.fullName[..|x.fullName| - |x.name|];
      assert x.fullName == prefix + x.name;
      ToLowerConcat(prefix, x.name);
      if Contains(ToLower(x.name), ToLower(term)) {
        ContainsInSuffix(ToLower(prefix), ToLower(x.name), ToLower(term));
      }
    }
    FilterSame(jobs, (x: JobTreeItem) => Matches(x, term),
      (x: JobTreeItem) => Contains(ToLower(x.fullName), ToLower(term)));
  }
}
