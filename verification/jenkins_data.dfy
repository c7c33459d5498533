/**
 * The parts of Jenkins' JSON answers the commands read: a job's detail object
 * and a build object with its actions and causes. A field the answer may lack
 * is an `Option`.
 */
module JenkinsData {
  import opened Wrappers

  /** A build reference inside a job's detail object. */
  datatype BuildRef = BuildRef(number: int, url: string)

  /** A job's detail object (`/job/<...>/api/json`). */
  datatype JobData = JobData(
    name: string,
    fullName: Option<string>,
    url: string,
    description: Option<string>,
    buildable: bool,
    lastBuild: Option<BuildRef>,
    lastSuccessfulBuild: Option<BuildRef>,
    lastFailedBuild: Option<BuildRef>,
    cls: Option<string>,
    jobs: Option<seq<string>>,
    color: Option<string>)

  /** One cause of a build. */
  datatype Cause = Cause(
    cls: Option<string>,
    userId: Option<string>,
    upstreamProject: Option<string>,
    upstreamBuild: Option<int>,
    origin: Option<string>,
    shortDescription: Option<string>)

  /** One entry of a build's `actions`. */
  datatype Action = Action(cls: Option<string>, causes: Option<seq<Cause>>)

  /** A build object (`/job/<...>/lastBuild/api/json`); times are in milliseconds. */
  datatype BuildData = BuildData(
    number: int,
    url: string,
    result: Option<string>,
    duration: Option<int>,
    timestamp: Option<int>,
    estimatedDuration: Option<int>,
    actions: Option<seq<Action>>)

  /** JavaScript truthiness of an optional number: present and not zero. */
  predicate NonZero(v: Option<int>) {
    v.Some? && v.value != 0
  }

  /** `String(x)` of an optional value in a template literal: `undefined` when absent. */
  function OrUndefined(v: Option<string>): string {
    if v.Some? then v.value else "undefined"
  }
}
