/**
 * The `last-build` command: the checks before the build is fetched, the result
 * and state line, the timing arithmetic, and the causes that started the build.
 */
module LastBuild {
  import opened Wrappers
  import opened Strings
  import opened Seqs
  import opened Styling
  import opened JenkinsData
  import JenkinsFolder

  // ---------------------------------------------------------------------------
  // Checks before fetching the build

  /** Why the command stops before printing a build. */
  datatype LastBuildError =
    | FetchFailed(error: JenkinsFolder.FetchError)
    | NotBuildable(jobName: string)
    | NoBuilds(jobName: string)

  /** The job a stop is about. */
  function JobNameOf(e: LastBuildError): string {
    match e
    case FetchFailed(fetch) => fetch.jobFullName
    case NotBuildable(name) => name
    case NoBuilds(name) => name
  }

  /**
   * `validateAndGetBuildData`: the job's details first; a job that cannot be built stops the
   * command before the missing-build check, and the build itself is fetched only when both pass.
   * `details` and `builds` are what the server answers at each URL.
   */
  function ValidateAndGetBuildData(details: map<string, JobData>, builds: map<string, BuildData>, jobName: string)
    : (r: Result<(JobData, BuildData), LastBuildError>)
    ensures JenkinsFolder.JobInfoUrl(jobName) !in details
            ==> r == Failure(FetchFailed(JenkinsFolder.JobInfoError(jobName)))
    ensures JenkinsFolder.JobInfoUrl(jobName) in details && !details[JenkinsFolder.JobInfoUrl(jobName)].buildable
            ==> r == Failure(NotBuildable(jobName))
    ensures JenkinsFolder.JobInfoUrl(jobName) in details && details[JenkinsFolder.JobInfoUrl(jobName)].buildable
            && details[JenkinsFolder.JobInfoUrl(jobName)].lastBuild.None?
            ==> r == Failure(NoBuilds(jobName))
    ensures r.Success? <==>
      JenkinsFolder.JobInfoUrl(jobName) in details && details[JenkinsFolder.JobInfoUrl(jobName)].buildable
      && details[JenkinsFolder.JobInfoUrl(jobName)].lastBuild.Some?
      && JenkinsFolder.LastBuildUrl(jobName) in builds
    ensures r.Success? ==> r.value == (details[JenkinsFolder.JobInfoUrl(jobName)],
                                       builds[JenkinsFolder.LastBuildUrl(jobName)])
  {
    match JenkinsFolder.GetJobInfo(details, jobName)
    case Failure(e) => Failure(FetchFailed(e))
    case Success(job) =>
      if !job.buildable then Failure(NotBuildable(jobName))
      else if job.lastBuild.None? then Failure(NoBuilds(jobName))
      else
        match JenkinsFolder.GetLastBuild(builds, jobName)
        case Failure(e) => Failure(FetchFailed(e))
        case Success(build) => Success((job, build))
  }

  /**
   * The message printed after `❌ Error: ` for each stop; `cause` is the HTTP client's own
   * message for a failed request.
   */
  function ErrorMessage(e: LastBuildError, cause: string): (r: string)
    ensures Contains(r, JobNameOf(e))
    ensures e.FetchFailed? ==> EndsWith(r, ": " + cause)
  {
    match e
    case FetchFailed(JobInfoError(name)) =>
      ContainsMiddle("Error obteniendo información del job ", name, ": " + cause);
      "Error obteniendo información del job " + name + (": " + cause)
    case FetchFailed(LastBuildError(name)) =>
      ContainsMiddle("Error obteniendo último build del job ", name, ": " + cause);
      "Error obteniendo último build del job " + name + (": " + cause)
    case NotBuildable(name) =>
      ContainsMiddle("El job \"", name, "\" no es ejecutable (puede ser una carpeta o estar deshabilitado).");
      "El job \"" + name + "\" no es ejecutable (puede ser una carpeta o estar deshabilitado)."
    case NoBuilds(name) =>
      ContainsMiddle("El job \"", name, "\" no tiene builds ejecutados.");
      "El job \"" + name + "\" no tiene builds ejecutados."
  }

  /** Whatever stops the command, the message printed names the job that was asked for. */
  lemma StopNamesJob(details: map<string, JobData>, builds: map<string, BuildData>, jobName: string, cause: string)
    requires ValidateAndGetBuildData(details, builds, jobName).Failure?
    ensures Contains(ErrorMessage(ValidateAndGetBuildData(details, builds, jobName).error, cause), jobName)
  {
    assert JobNameOf(ValidateAndGetBuildData(details, builds, jobName).error) == jobName;
  }

  // ---------------------------------------------------------------------------
  // Result and state

  /** `getBuildResultDisplay`: the five known results, and any other result as it is, in gray. */
  function BuildResultDisplay(result: string): (r: Segment)
    ensures result == "SUCCESS" ==> r == Segment(Green, "✅ Exitoso")
    ensures result == "FAILURE" ==> r == Segment(Red, "❌ Fallido")
    ensures result == "UNSTABLE" ==> r == Segment(Yellow, "\U{26A0}\U{FE0F} Inestable")
    ensures result == "ABORTED" ==> r == Segment(Red, "🚫 Abortado")
    ensures result == "NOT_BUILT" ==> r == Segment(Gray, "\U{23ED}\U{FE0F} No construido")
    ensures result !in ["SUCCESS", "FAILURE", "UNSTABLE", "ABORTED", "NOT_BUILT"] ==> r == Segment(Gray, result)
  {
    match result
    case "SUCCESS" => Segment(Green, "✅ Exitoso")
    case "FAILURE" => Segment(Red, "❌ Fallido")
    case "UNSTABLE" => Segment(Yellow, "\U{26A0}\U{FE0F} Inestable")
    case "ABORTED" => Segment(Red, "🚫 Abortado")
    case "NOT_BUILT" => Segment(Gray, "\U{23ED}\U{FE0F} No construido")
    case _ => Segment(Gray, result)
  }

  /** The line after the URL: the result when there is one, otherwise the running state. */
  function ResultLine(result: Option<string>): (r: Line)
    ensures |r| == 2
    ensures Truthy(result) ==> r == [Segment(Bold, "Resultado:"), BuildResultDisplay(result.value)]
    ensures !Truthy(result) ==> r == [Segment(Bold, "Estado:"), Segment(Cyan, "🔄 En ejecución")]
  {
    if Truthy(result) then [Segment(Bold, "Resultado:"), BuildResultDisplay(result.value)]
    else [Segment(Bold, "Estado:"), Segment(Cyan, "🔄 En ejecución")]
  }

  // ---------------------------------------------------------------------------
  // Timing

  /**
   * The timing lines: the duration as whole minutes and seconds, the start and end instants
   * (the formatting of an instant is not part of this model) and the estimate in minutes.
   */
  datatype Timing = Timing(
    duration: Option<(int, int)>, started: Option<int>, finished: Option<int>, estimateMinutes: Option<int>)

  /** `displayBuildTiming`. */
  function TimingOf(build: BuildData): (r: Timing)
    ensures r.duration.Some? <==> build.duration.Some? && build.duration.value > 0
    ensures r.duration.Some? ==> var (m, s) := r.duration.value;
      0 <= s < 60 && m * 60000 + s * 1000 <= build.duration.value < m * 60000 + (s + 1) * 1000
    ensures r.started.Some? <==> NonZero(build.timestamp)
    ensures r.started.Some? ==> r.started.value == build.timestamp.value
    ensures r.finished.Some? <==> NonZero(build.timestamp) && r.duration.Some?
    ensures r.finished.Some? ==> r.finished.value == build.timestamp.value + build.duration.value
    ensures r.estimateMinutes.Some? <==> !Truthy(build.result) && NonZero(build.estimatedDuration)
    ensures r.estimateMinutes.Some? ==> var e := build.estimatedDuration.value;
      r.estimateMinutes.value * 60000 <= e < (r.estimateMinutes.value + 1) * 60000
  {
    var ran := build.duration.Some? && build.duration.value > 0;
    Timing(
      if ran then Some((build.duration.value / 60000, build.duration.value % 60000 / 1000)) else None,
      if NonZero(build.timestamp) then Some(build.timestamp.value) else None,
      if NonZero(build.timestamp) && ran then Some(build.timestamp.value + build.duration.value) else None,
      if !Truthy(build.result) && NonZero(build.estimatedDuration)
      then Some(build.estimatedDuration.value / 60000) else None)
  }

  /** Only one minutes-and-seconds reading fits a duration. */
  lemma DurationReadingUnique(d: int, m: int, s: int)
    requires d > 0 && 0 <= s < 60 && m * 60000 + s * 1000 <= d < m * 60000 + (s + 1) * 1000
    ensures (m, s) == (d / 60000, d % 60000 / 1000)
  {
    assert m * 60000 <= d < (m + 1) * 60000;
    assert d / 60000 == m;
    assert d % 60000 == d - m * 60000;
  }

  /** A running build shows an estimate; a finished one never does. */
  lemma EstimateOnlyWhileRunning(build: BuildData)
    requires Truthy(build.result)
    ensures TimingOf(build).estimateMinutes.None?
  {
  }

  // ---------------------------------------------------------------------------
  // Causes

  predicate IsCauseAction(a: Action) {
    a.cls.Some? && Contains(a.cls.value, "CauseAction")
  }

  /** The `filter`/`flatMap`: the causes of the cause actions, in order; missing causes count as none. */
  function CausesOf(actions: seq<Action>): (r: seq<Cause>)
    decreases |actions|
  {
    if actions == [] then []
    else (if IsCauseAction(actions[0]) then actions[0].causes.GetOr([]) else []) + CausesOf(actions[1..])
  }

  /** Collecting causes distributes over concatenated action lists. */
  lemma {:induction false} CausesOfConcat(a: seq<Action>, b: seq<Action>)
    ensures CausesOf(a + b) == CausesOf(a) + CausesOf(b)
    decreases |a|
  {
    if a == [] {
      assert a + b == b;
    } else {
      CausesOfConcat(a[1..], b);
      var head := if IsCauseAction(a[0]) then a[0].causes.GetOr([]) else [];
      assert (a + b)[0] == a[0];
      assert (a + b)[1..] == a[1..] + b;
      assert CausesOf(a + b) == head + CausesOf(a[1..] + b);
    }
  }

  /** A cause is collected exactly when some cause action lists it. */
  lemma {:induction false} CausesOfMembers(actions: seq<Action>, c: Cause)
    ensures c in CausesOf(actions) <==>
      exists i :: 0 <= i < |actions| && IsCauseAction(actions[i]) && c in actions[i].causes.GetOr([])
    decreases |actions|
  {
    if actions != [] {
      CausesOfMembers(actions[1..], c);
      if exists i :: 0 <= i < |actions[1..]| && IsCauseAction(actions[1..][i]) && c in actions[1..][i].causes.GetOr([]) {
        var i :| 0 <= i < |actions[1..]| && IsCauseAction(actions[1..][i]) && c in actions[1..][i].causes.GetOr([]);
        assert actions[i + 1] == actions[1..][i];
      }
      if exists i :: 0 <= i < |actions| && IsCauseAction(actions[i]) && c in actions[i].causes.GetOr([]) {
        var i :| 0 <= i < |actions| && IsCauseAction(actions[i]) && c in actions[i].causes.GetOr([]);
        if i > 0 {
          assert actions[1..][i - 1] == actions[i];
        }
      }
    }
  }

  /** `getCauseDisplay`: the first class name the cause's class contains decides its line. */
  function CauseDisplay(cause: Cause): (r: string)
    ensures var cls := cause.cls.GetOr("");
      && (Contains(cls, "UserIdCause") ==>
            r == "👤 Usuario: " + (if Truthy(cause.userId) then cause.userId.value else "Desconocido"))
      && (!Contains(cls, "UserIdCause") && Contains(cls, "TimerTriggerCause") ==>
            r == "⏰ Programación temporal")
      && (!Contains(cls, "UserIdCause") && !Contains(cls, "TimerTriggerCause")
          && Contains(cls, "SCMTriggerCause") ==>
            r == "🔄 Cambio en repositorio")
      && (!Contains(cls, "UserIdCause") && !Contains(cls, "TimerTriggerCause")
          && !Contains(cls, "SCMTriggerCause") && Contains(cls, "UpstreamCause") ==>
            r == "\U{2B06}\U{FE0F} Build padre: " + OrUndefined(cause.upstreamProject) + "#"
                 + (if cause.upstreamBuild.Some? then IntToString(cause.upstreamBuild.value) else "undefined"))
      && (!Contains(cls, "UserIdCause") && !Contains(cls, "TimerTriggerCause")
          && !Contains(cls, "SCMTriggerCause") && !Contains(cls, "UpstreamCause")
          && Contains(cls, "BranchEventCause") ==>
            r == "🌿 Evento de rama: " + (if Truthy(cause.origin) then cause.origin.value else "Desconocido"))
      && (!Contains(cls, "UserIdCause") && !Contains(cls, "TimerTriggerCause")
          && !Contains(cls, "SCMTriggerCause") && !Contains(cls, "UpstreamCause")
          && !Contains(cls, "BranchEventCause") ==>
            r == (if Truthy(cause.shortDescription) then cause.shortDescription.value else "Causa desconocida"))
  {
    var cls := cause.cls.GetOr("");
    if Contains(cls, "UserIdCause") then
      "👤 Usuario: " + (if Truthy(cause.userId) then cause.userId.value else "Desconocido")
    else if Contains(cls, "TimerTriggerCause") then "⏰ Programación temporal"
    else if Contains(cls, "SCMTriggerCause") then "🔄 Cambio en repositorio"
    else if Contains(cls, "UpstreamCause") then
      "\U{2B06}\U{FE0F} Build padre: " + OrUndefined(cause.upstreamProject) + "#"
      + (if cause.upstreamBuild.Some? then IntToString(cause.upstreamBuild.value) else "undefined")
    else if Contains(cls, "BranchEventCause") then
      "🌿 Evento de rama: " + (if Truthy(cause.origin) then cause.origin.value else "Desconocido")
    else if Truthy(cause.shortDescription) then cause.shortDescription.value
    else "Causa desconocida"
  }

  /** A cause without a class falls through to its short description. */
  lemma UnclassifiedCause(cause: Cause)
    requires cause.cls.None?
    ensures CauseDisplay(cause) == (if Truthy(cause.shortDescription) then cause.shortDescription.value
                                    else "Causa desconocida")
  {
    NoPatternInEmpty("UserIdCause");
    NoPatternInEmpty("TimerTriggerCause");
    NoPatternInEmpty("SCMTriggerCause");
    NoPatternInEmpty("UpstreamCause");
    NoPatternInEmpty("BranchEventCause");
  }

  lemma NoPatternInEmpty(t: string)
    requires t != ""
    ensures !Contains("", t)
  {
  }

  /** `displayBuildCauses`: nothing without actions or causes, else a heading and one line per cause. */
  function CauseLines(build: BuildData): (r: seq<string>)
    ensures build.actions.None? || CausesOf(build.actions.value) == [] <==> r == []
    ensures r != [] ==> |r| == |CausesOf(build.actions.value)| + 1
    ensures r != [] ==> forall i :: 0 <= i < |CausesOf(build.actions.value)| ==>
      r[i + 1] == "   • " + CauseDisplay(CausesOf(build.actions.value)[i])
  {
    if build.actions.None? then []
    else
      var causes := CausesOf(build.actions.value);
      if causes == [] then []
      else ["Iniciado por:"] + Map(causes, c => "   • " + CauseDisplay(c))
  }

  // ---------------------------------------------------------------------------
  // The command

  /** What `last-build` prints: an error, or the header, timing and cause lines. */
  datatype LastBuildReport = LastBuildReport(
    jobName: string, number: int, url: string, result: Line, timing: Timing, causes: seq<string>)

  function LastBuild(details: map<string, JobData>, builds: map<string, BuildData>, jobName: string)
    : (r: Result<LastBuildReport, LastBuildError>)
    ensures r.Success? <==> ValidateAndGetBuildData(details, builds, jobName).Success?
    ensures r.Failure? ==> r.error == ValidateAndGetBuildData(details, builds, jobName).error
    ensures r.Success? ==> var (job, build) := ValidateAndGetBuildData(details, builds, jobName).value;
      && r.value.jobName == (if Truthy(job.fullName) then job.fullName.value else jobName)
      && r.value.number == build.number
      && r.value.url == build.url
      && r.value.result == ResultLine(build.result)
      && r.value.timing == TimingOf(build)
      && r.value.causes == CauseLines(build)
  {
    match ValidateAndGetBuildData(details, builds, jobName)
    case Failure(e) => Failure(e)
    case Success((job, build)) =>
      Success(LastBuildReport(
        if Truthy(job.fullName) then job.fullName.value else jobName,
        build.number, build.url, ResultLine(build.result), TimingOf(build), CauseLines(build)))
  }
}
