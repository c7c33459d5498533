/**
 * The traversal on the repository's own test fixtures: a root listing with
 * `test-job-1`, the folder `backend` and `frontend-build`, and a `backend`
 * listing with `api-service` and `database-migration`.
 */
module FolderFixtures {
  import opened Wrappers
  import opened JenkinsFolder

  const TestJob1 := RawItem("test-job-1", "http://localhost:8080/job/test-job-1/",
    "hudson.model.FreeStyleProject", Some("blue"))
  const Backend := RawItem("backend", "http://localhost:8080/job/backend/",
    "com.cloudbees.hudson.plugins.folder.Folder", None)
  const FrontendBuild := RawItem("frontend-build", "http://localhost:8080/job/frontend-build/",
    "hudson.model.FreeStyleProject", Some("red"))
  const ApiService := RawItem("api-service", "http://localhost:8080/job/backend/job/api-service/",
    "hudson.model.FreeStyleProject", Some("blue"))
  const DatabaseMigration := RawItem("database-migration",
    "http://localhost:8080/job/backend/job/database-migration/",
    "org.jenkinsci.plugins.workflow.job.WorkflowJob", Some("yellow"))

  const Fixture: Server := map[
    "" := Some([TestJob1, Backend, FrontendBuild]),
    "backend" := Some([ApiService, DatabaseMigration])
  ]

  /** The same server with the `backend` listing failing. */
  const BrokenBackend: Server := Fixture["backend" := None]

  const TestJob1Node := JobTreeItem("test-job-1", "test-job-1", Job, TestJob1.url, 0, Some("blue"))
  const BackendNode := JobTreeItem("backend", "backend", Folder, Backend.url, 0, None)
  const ApiServiceNode := JobTreeItem("api-service", "backend/api-service", Job, ApiService.url, 1, Some("blue"))
  const DatabaseMigrationNode := JobTreeItem("database-migration", "backend/database-migration", Job,
    DatabaseMigration.url, 1, Some("yellow"))
  const FrontendBuildNode := JobTreeItem("frontend-build", "frontend-build", Job, FrontendBuild.url, 0, Some("red"))

  /** Each root item becomes the node the fixtures expect. */
  lemma RootNodes()
    ensures MakeItem(TestJob1, "") == TestJob1Node
    ensures MakeItem(Backend, "") == BackendNode
    ensures MakeItem(FrontendBuild, "") == FrontendBuildNode
  {
  }

  lemma BackendLevel()
    ensures ChildLevel("backend") == 1
  {
  }

  lemma BackendNames()
    ensures "backend" + "/" + "api-service" == "backend/api-service"
    ensures "backend" + "/" + "database-migration" == "backend/database-migration"
  {
  }

  lemma BackendPaths()
    ensures ChildPath("backend", "api-service") == "backend/api-service"
    ensures ChildPath("backend", "database-migration") == "backend/database-migration"
  {
    ChildPathBelow("backend", "api-service");
    ChildPathBelow("backend", "database-migration");
    BackendNames();
  }

  lemma BackendClasses()
    ensures !IsFolder(ApiService.cls) && !IsFolder(DatabaseMigration.cls)
  {
  }

  /** Each item of `backend` becomes the node the fixtures expect, one level down. */
  lemma BackendNodes()
    ensures MakeItem(ApiService, "backend") == ApiServiceNode
    ensures MakeItem(DatabaseMigration, "backend") == DatabaseMigrationNode
  {
    BackendLevel();
    BackendPaths();
    BackendClasses();
  }

  lemma BackendListing()
    ensures Traverse(Fixture, "backend") == [ApiServiceNode, DatabaseMigrationNode]
  {
    var jobs := [ApiService, DatabaseMigration];
    BackendNodes();
    assert "backend" in Fixture;
    assert Listing(Fixture, "backend") == Some(jobs);
    assert jobs[..1] == [ApiService];
    assert [ApiService][..0] == [];
    assert Subtree(Fixture, ApiService, "backend") == [ApiServiceNode];
    assert Subtree(Fixture, DatabaseMigration, "backend") == [DatabaseMigrationNode];
    assert Children(Fixture, "backend", jobs[..1]) == [ApiServiceNode];
  }

  /** The root loop over a listing whose `backend` subtree is `below`. */
  lemma RootChildren(server: Server, below: seq<JobTreeItem>)
    requires "" in server && server[""] == Some([TestJob1, Backend, FrontendBuild])
    requires Traverse(server, "backend") == below
    ensures Traverse(server, "") == [TestJob1Node, BackendNode] + below + [FrontendBuildNode]
  {
    var jobs := [TestJob1, Backend, FrontendBuild];
    RootNodes();
    assert Listing(server, "") == Some(jobs);
    assert jobs[..2] == [TestJob1, Backend];
    assert jobs[..2][..1] == [TestJob1];
    assert [TestJob1][..0] == [];
    assert Subtree(server, TestJob1, "") == [TestJob1Node];
    assert Subtree(server, Backend, "") == [BackendNode] + below;
    assert Subtree(server, FrontendBuild, "") == [FrontendBuildNode];
    assert Children(server, "", [TestJob1]) == [TestJob1Node] by {
      assert Children(server, "", []) == [];
    }
    assert Children(server, "", jobs[..2]) == [TestJob1Node, BackendNode] + below;
  }

  /** Pre-order in server order: the folder, then its contents, then its next sibling. */
  lemma FixtureTraversal()
    ensures Traverse(Fixture, "")
         == [TestJob1Node, BackendNode, ApiServiceNode, DatabaseMigrationNode, FrontendBuildNode]
  {
    BackendListing();
    RootChildren(Fixture, [ApiServiceNode, DatabaseMigrationNode]);
  }

  /** A failing sub-folder listing leaves an empty subtree and keeps its siblings. */
  lemma BrokenBackendTraversal()
    ensures Traverse(BrokenBackend, "") == [TestJob1Node, BackendNode, FrontendBuildNode]
  {
    assert Listing(BrokenBackend, "backend") == None;
    RootChildren(BrokenBackend, []);
  }

  /** Filtering a five-element sequence whose second element alone fails the test. */
  lemma FilterDropsSecond<T>(a: T, b: T, c: T, d: T, e: T, p: T -> bool)
    requires p(a) && !p(b) && p(c) && p(d) && p(e)
    ensures Seqs.Filter([a, b, c, d, e], p) == [a, c, d, e]
  {
    Seqs.FilterAll([c, d, e], p);
    assert Seqs.Filter([b], p) == [] by { assert [b][1..] == []; }
    assert Seqs.Filter([a], p) == [a] by { assert [a][1..] == []; }
    Seqs.FilterConcat([b], [c, d, e], p);
    Seqs.FilterConcat([a], [b] + [c, d, e], p);
    assert [a, b, c, d, e] == [a] + ([b] + [c, d, e]);
  }

  /** Filtering a four-element sequence whose second element alone passes the test. */
  lemma FilterKeepsSecond<T>(a: T, b: T, c: T, d: T, p: T -> bool)
    requires !p(a) && p(b) && !p(c) && !p(d)
    ensures Seqs.Filter([a, b, c, d], p) == [b]
  {
    assert Seqs.Filter([d], p) == [] by { assert [d][1..] == []; }
    assert Seqs.Filter([c, d], p) == [] by { assert [c, d][1..] == [d]; }
    assert Seqs.Filter([b, c, d], p) == [b] by { assert [b, c, d][1..] == [c, d]; }
    assert [a, b, c, d][1..] == [b, c, d];
  }

  /** `getAllJobs` drops the folder and keeps the order. */
  lemma FixtureJobs()
    ensures GetAllJobs(Fixture, "") == [TestJob1Node, ApiServiceNode, DatabaseMigrationNode, FrontendBuildNode]
  {
    FixtureTraversal();
    FilterDropsSecond(TestJob1Node, BackendNode, ApiServiceNode, DatabaseMigrationNode, FrontendBuildNode, IsJob);
  }

  /** None of these names has a `p`, so none matches "api". */
  lemma NoApi(x: JobTreeItem)
    requires 'p' !in x.name && 'P' !in x.name && 'p' !in x.fullName && 'P' !in x.fullName
    ensures !Matches(x, "api")
  {
    assert Strings.ToLower("api")[1] == 'p';
    Strings.ToLowerAbsent(x.name, 'p');
    Strings.ToLowerAbsent(x.fullName, 'p');
    Strings.ContainsNeedsChar(Strings.ToLower(x.name), Strings.ToLower("api"), 'p');
    Strings.ContainsNeedsChar(Strings.ToLower(x.fullName), Strings.ToLower("api"), 'p');
  }

  lemma ApiMatches()
    ensures Matches(ApiServiceNode, "api")
  {
    var lowered := Strings.ToLower("api-service");
    assert lowered[..3] == Strings.ToLower("api");
    assert Strings.StartsWith(lowered, Strings.ToLower("api"));
  }

  lemma NoPInDatabaseMigration()
    ensures 'p' !in "database-migration" && 'P' !in "database-migration"
    ensures 'p' !in "backend/database-migration" && 'P' !in "backend/database-migration"
  {
    assert "database-migration" == "database" + "-" + "migration";
    assert "backend/database-migration" == "backend/" + "database-migration";
  }

  lemma TestJob1NotFound()
    ensures !Matches(TestJob1Node, "api")
  {
    NoApi(TestJob1Node);
  }

  lemma DatabaseMigrationNotFound()
    ensures !Matches(DatabaseMigrationNode, "api")
  {
    NoPInDatabaseMigration();
    NoApi(DatabaseMigrationNode);
  }

  lemma FrontendBuildNotFound()
    ensures !Matches(FrontendBuildNode, "api")
  {
    NoApi(FrontendBuildNode);
  }

  /** Filtering by a test only the second of four items passes. */
  lemma OnlySecondMatches(a: JobTreeItem, b: JobTreeItem, c: JobTreeItem, d: JobTreeItem, term: string)
    requires !Matches(a, term) && Matches(b, term) && !Matches(c, term) && !Matches(d, term)
    ensures Seqs.Filter([a, b, c, d], (x: JobTreeItem) => Matches(x, term)) == [b]
  {
    FilterKeepsSecond(a, b, c, d, (x: JobTreeItem) => Matches(x, term));
  }

  /** Searching "api" finds `backend/api-service` alone. */
  lemma FixtureSearch()
    ensures FindJobsByName(Fixture, "api") == [ApiServiceNode]
  {
    FixtureJobs();
    TestJob1NotFound();
    DatabaseMigrationNotFound();
    FrontendBuildNotFound();
    ApiMatches();
    OnlySecondMatches(TestJob1Node, ApiServiceNode, DatabaseMigrationNode, FrontendBuildNode, "api");
  }
}
