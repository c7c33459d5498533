/**
 * The `info` command: a job's details, its type for folders and multi-branch
 * projects, and its status in words.
 */
module JobInfo {
  import opened Wrappers
  import opened Strings
  import opened Styling
  import opened JenkinsData
  import JenkinsFolder
  import Formatters
  import ListJobs

  /** `getJobTypeDisplay`: the first of four class names the class contains decides; otherwise the class itself. */
  function JobTypeDisplay(cls: string): (r: Segment)
    ensures Contains(cls, "MultiBranchProject") ==> r == Segment(Blue, "Multi-branch Pipeline")
    ensures !Contains(cls, "MultiBranchProject") && Contains(cls, "Folder") ==> r == Segment(Blue, "Carpeta")
    ensures !Contains(cls, "MultiBranchProject") && !Contains(cls, "Folder") && Contains(cls, "WorkflowJob") ==>
      r == Segment(Green, "Pipeline")
    ensures (!Contains(cls, "MultiBranchProject") && !Contains(cls, "Folder") && !Contains(cls, "WorkflowJob")
             && Contains(cls, "FreeStyleProject")) ==>
      r == Segment(Yellow, "Freestyle")
    ensures (!Contains(cls, "MultiBranchProject") && !Contains(cls, "Folder") && !Contains(cls, "WorkflowJob")
             && !Contains(cls, "FreeStyleProject")) ==>
      r == Segment(Gray, cls)
  {
    if Contains(cls, "MultiBranchProject") then Segment(Blue, "Multi-branch Pipeline")
    else if Contains(cls, "Folder") then Segment(Blue, "Carpeta")
    else if Contains(cls, "WorkflowJob") then Segment(Green, "Pipeline")
    else if Contains(cls, "FreeStyleProject") then Segment(Yellow, "Freestyle")
    else Segment(Gray, cls)
  }

  /** Where the type line is printed at all, it names a multi-branch project or a folder. */
  lemma TypeLineIsContainer(cls: string)
    requires Contains(cls, "MultiBranchProject") || Contains(cls, "Folder")
    ensures JobTypeDisplay(cls) in {Segment(Blue, "Multi-branch Pipeline"), Segment(Blue, "Carpeta")}
  {
  }

  /** `getJobStatusDisplay`: the known colours in words; any other colour as it is, in gray. */
  function JobStatusDisplay(color: string): (r: Segment)
    ensures color == "blue" ==> r == Segment(Green, "✅ Exitoso")
    ensures color == "red" ==> r == Segment(Red, "❌ Fallido")
    ensures color == "yellow" ==> r == Segment(Yellow, "\U{26A0}\U{FE0F} Inestable")
    ensures color == "grey" || color == "disabled" ==> r == Segment(Gray, "⚪ Deshabilitado")
    ensures color == "aborted" ==> r == Segment(Red, "🚫 Abortado")
    ensures color == "blue_anime" ==> r == Segment(Cyan, "🔄 Ejecutándose (exitoso)")
    ensures color == "red_anime" ==> r == Segment(Red, "🔄 Ejecutándose (fallido)")
    ensures color == "yellow_anime" ==> r == Segment(Yellow, "🔄 Ejecutándose (inestable)")
    ensures color in ["blue_anime", "red_anime", "yellow_anime"] ==> StartsWith(r.text, "🔄 Ejecutándose")
    ensures color !in ListJobs.KnownColors ==> r == Segment(Gray, color)
  {
    match color
    case "blue" => Segment(Green, "✅ Exitoso")
    case "red" => Segment(Red, "❌ Fallido")
    case "yellow" => Segment(Yellow, "\U{26A0}\U{FE0F} Inestable")
    case "grey" => Segment(Gray, "⚪ Deshabilitado")
    case "disabled" => Segment(Gray, "⚪ Deshabilitado")
    case "aborted" => Segment(Red, "🚫 Abortado")
    case "blue_anime" => Segment(Cyan, "🔄 Ejecutándose (exitoso)")
    case "red_anime" => Segment(Red, "🔄 Ejecutándose (fallido)")
    case "yellow_anime" => Segment(Yellow, "🔄 Ejecutándose (inestable)")
    case _ => Segment(Gray, color)
  }

  /**
   * The list's status suffix and the status in words agree on which colours are known:
   * the suffix is empty exactly when the words are the colour itself.
   */
  lemma StatusViewsAgree(color: string)
    requires color != ""
    ensures ListJobs.JobStatus(Some(color)).text == "" <==> JobStatusDisplay(color) == Segment(Gray, color)
  {
  }

  // ---------------------------------------------------------------------------
  // The command

  /** What `info` prints, field by field; an absent field is a line not printed. */
  datatype JobInfoReport = JobInfoReport(
    name: string,
    fullName: string,
    url: string,
    description: Segment,
    lastBuild: Segment,
    lastBuildUrl: Option<string>,
    lastSuccessful: Option<string>,
    lastFailed: Option<string>,
    jobType: Option<Segment>,
    subItems: Option<nat>,
    status: Option<Segment>,
    buildable: Segment)

  /** `#<number>` for a build reference. */
  function BuildNumber(b: BuildRef): string {
    "#" + IntToString(b.number)
  }

  /** Whether the class names a multi-branch project or a folder (`_class?.includes(...)`). */
  predicate IsContainerClass(cls: Option<string>) {
    cls.Some? && (Contains(cls.value, "MultiBranchProject") || Contains(cls.value, "Folder"))
  }

  /** The report on a job's details; `jobName` is the name asked for. */
  function Report(job: JobData, jobName: string): (r: JobInfoReport)
    ensures r.fullName == (if Truthy(job.fullName) then job.fullName.value else jobName)
    ensures r.description == Formatters.ValueOrEmpty(job.description, "Sin descripción")
    ensures job.lastBuild.Some? ==> r.lastBuild == Segment(Plain, BuildNumber(job.lastBuild.value))
    ensures job.lastBuild.None? ==> r.lastBuild == Segment(Gray, "Ninguno")
    ensures r.lastBuildUrl.Some? <==> job.lastBuild.Some?
    ensures r.jobType.Some? <==> IsContainerClass(job.cls)
    ensures r.jobType.Some? ==> r.jobType.value == JobTypeDisplay(job.cls.value)
    ensures r.subItems.Some? <==> IsContainerClass(job.cls) && job.jobs.Some? && |job.jobs.value| > 0
    ensures r.subItems.Some? ==> r.subItems.value == |job.jobs.value|
    ensures r.status.Some? <==> Truthy(job.color)
    ensures r.status.Some? ==> r.status.value == JobStatusDisplay(job.color.value)
    ensures r.buildable.text == (if job.buildable then "Sí" else "No")
  {
    var container := IsContainerClass(job.cls);
    JobInfoReport(
      job.name,
      if Truthy(job.fullName) then job.fullName.value else jobName,
      job.url,
      Formatters.ValueOrEmpty(job.description, "Sin descripción"),
      if job.lastBuild.Some? then Segment(Plain, BuildNumber(job.lastBuild.value)) else Segment(Gray, "Ninguno"),
      if job.lastBuild.Some? then Some(job.lastBuild.value.url) else None,
      if job.lastSuccessfulBuild.Some? then Some(BuildNumber(job.lastSuccessfulBuild.value)) else None,
      if job.lastFailedBuild.Some? then Some(BuildNumber(job.lastFailedBuild.value)) else None,
      if container then Some(JobTypeDisplay(job.cls.value)) else None,
      if container && job.jobs.Some? && |job.jobs.value| > 0 then Some(|job.jobs.value|) else None,
      if Truthy(job.color) then Some(JobStatusDisplay(job.color.value)) else None,
      Formatters.Boolean(job.buildable, Formatters.DefaultYesText, Formatters.DefaultNoText))
  }

  /** `jobInfo` against a server: the report, or the fetch error. */
  function JobInfo(details: map<string, JobData>, jobName: string)
    : (r: Result<JobInfoReport, JenkinsFolder.FetchError>)
    ensures r.Failure? <==> JenkinsFolder.JobInfoUrl(jobName) !in details
    ensures r.Success? ==> r.value == Report(details[JenkinsFolder.JobInfoUrl(jobName)], jobName)
  {
    match JenkinsFolder.GetJobInfo(details, jobName)
    case Failure(e) => Failure(e)
    case Success(job) => Success(Report(job, jobName))
  }
}
