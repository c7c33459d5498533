# butler-cli core, modelled in Dafny

butler-cli is a command-line client for Jenkins. This project models its core in Dafny:

- the walk of the Jenkins item tree;
- the configuration-profile store;
- the text formatters;
- the pure logic of the `build`, `list`, `search`, `folders`, `last-build`, `info` and
  `fetch-jobs` commands.

The Jenkins server is a value. A finite map sends a folder path to the `jobs` array its listing
endpoint returns, and `None` (or an absent path) stands for a failed call or a response without
`jobs`. Detail objects and build objects are maps keyed by the URL the source requests. Each
command becomes a function from those values to a report datatype holding the lines it prints.

| file | module | what it holds |
|---|---|---|
| `wrappers.dfy` | `Wrappers` | `Option`, `Result`, JavaScript truthiness of an optional string |
| `strings.dfy` | `Strings` | split/join, `toLowerCase`, `trim`, `repeat`, `replace`, decimal printing |
| `seqs.dfy` | `Seqs` | `filter`, `map`, the counting record (`Tally`) and its sums |
| `styling.dfy` | `Styling` | a printed line as styled segments (what `chalk` produces) |
| `jenkins_folder.dfy` | `JenkinsFolder` | `getAllJobsRecursive`, `processJenkinsItem`, `buildApiUrl`, `getJobInfo`, `getLastBuild`, `isFolder`, `getAllJobs`, `findJobsByName`, `getFolderStructure` |
| `folder_fixtures.dfy` | `FolderFixtures` | the traversal on the repository's mock server |
| `config.dfy` | `Config` | `ConfigManagerImpl` as a class over the profile directory and current-config file; `getJenkinsConfig` |
| `formatters.dfy` | `Formatters` | `duration`, `buildStatus`, `separator`, `field`, `boolean`, `defaultValue`, `TableBuilder` |
| `build.dfy` | `Build` | `parseCliParams`, `promptForParameters`, the choice between them |
| `full_names.dfy` | `FullNames` | a full name taken apart into parent folder and last segment |
| `list_jobs.dfy` | `ListJobs` | `listJobs`, `getItemIcon`, `getJobStatus` |
| `search_jobs.dfy` | `SearchJobs` | `searchJobs`, `groupJobsByParentFolder` |
| `show_folders.dfy` | `ShowFolders` | `showFolders` and its per-level statistics |
| `jenkins_data.dfy` | `JenkinsData` | the JSON objects the commands read |
| `last_build.dfy` | `LastBuild` | `validateAndGetBuildData`, the build header, timing and causes |
| `job_info.dfy` | `JobInfo` | `jobInfo`, `getJobTypeDisplay`, `getJobStatusDisplay` |
| `fetch_jobs.dfy` | `FetchJobs` | `fetchJobs`: the saved names and the example lines |

Some code is imperative and is modelled as such:

- the `for` loop of `getAllJobsRecursive`;
- the `for` loop of `parseCliParams`;
- the two counting `forEach` loops (`groupJobsByParentFolder` and the `levelStats` record).

Each of these is a method with a loop, proved equal to a specification function. The properties are proved about that function. `ConfigManagerImpl` and `TableBuilder` update their state in place. They are classes whose methods state the whole new state.

`getJobStatus` appears twice, in `src/commands/listJobs.ts:81-104` and `src/commands/searchJobs.ts:48-72`, with the same cases. Both copies are `ListJobs.JobStatus`.

Folder detection (`src/utils/jenkinsFolder.ts:129-138`) tests exact membership in four class names, not a substring match. The model follows the code: `JenkinsFolder.IsFolderExact` shows that a class such as `hudson.model.FolderProperty` is a job.

## Model

| member | source | states |
|---|---|---|
| JenkinsFolder.Traverse | src/utils/jenkinsFolder.ts:31-53 | the specification of the walk: no items when the listing fails or has no `jobs`, otherwise the children of the listing |
| JenkinsFolder.Children | src/utils/jenkinsFolder.ts:42-46 | the subtrees of the listed items, appended in listing order |
| JenkinsFolder.Subtree | src/utils/jenkinsFolder.ts:65-86 | an item's node, followed for a folder by the walk below its full name |
| JenkinsFolder.MakeItem | src/utils/jenkinsFolder.ts:65-76 | the node keeps the item's name, URL and colour, takes its full name and level from the parent path, and is a folder exactly when its class is a folder class |
| JenkinsFolder.GetAllJobsRecursive | src/utils/jenkinsFolder.ts:31-53 | the loop over the listing yields exactly the depth-first traversal: `[]` when the listing fails or has no `jobs`, otherwise each item's subtree appended in listing order |
| JenkinsFolder.ProcessJenkinsItem | src/utils/jenkinsFolder.ts:65-86 | an item yields its own node followed, for a folder only, by the traversal of its full name |
| JenkinsFolder.ChildPath | src/utils/jenkinsFolder.ts:66 | a child's full name ends in its name and, below the root, starts with the parent path and a `/` |
| JenkinsFolder.ChildLevel | src/utils/jenkinsFolder.ts:67 | below the root, a child's level is the number of `/` in the parent path plus one |
| JenkinsFolder.ChildPathLonger | src/utils/jenkinsFolder.ts:66 | a non-empty name gives a full name longer than the parent path, so every recursion goes deeper |
| JenkinsFolder.EmptyNameRelistsRoot | src/utils/jenkinsFolder.ts:66 | an empty name at the root would get the root's own full name, level and listing URL |
| JenkinsFolder.MakeItemPlaced | src/utils/jenkinsFolder.ts:65-76 | a listed item's node lies under its parent path, ends in its name and is at least one level below the parent |
| JenkinsFolder.PlacedUnderParent | src/utils/jenkinsFolder.ts:66-67 | a node placed under a child folder is also placed under that folder's parent |
| JenkinsFolder.TraversePlaced | src/utils/jenkinsFolder.ts:31-86 | every node of a traversal lies under the starting path; with slash-free names its level is the number of `/` in its full name |
| JenkinsFolder.BuildApiUrl | src/utils/jenkinsFolder.ts:58-60 | the root is listed at `/api/json`; any other path at `/job/` plus the path with every `/` rewritten to `/job/`, plus `/api/json` |
| JenkinsFolder.BuildApiUrlSegments | src/utils/jenkinsFolder.ts:58-60 | a path of slash-free segments becomes one `/job/<segment>` per segment followed by `/api/json` |
| JenkinsFolder.RewriteJoin | src/utils/jenkinsFolder.ts:59 | rewriting every `/` of a slash-joined path gives the `/job/` prefixes of its segments |
| JenkinsFolder.ApiUrlOfThreeSegments | src/utils/jenkinsFolder.ts:58-60 | `a/b/c` is listed at `/job/a/job/b/job/c/api/json` |
| JenkinsFolder.UnrewriteRewrite | src/utils/jenkinsFolder.ts:59 | the `/`→`/job/` rewriting is undone by reading every `/job/` back as `/` |
| JenkinsFolder.ApiUrlRoundTrip | src/utils/jenkinsFolder.ts:58-60 | the folder path can be read back from its listing URL, so different folders are listed at different URLs (the root at `/api/json`) |
| JenkinsFolder.JobInfoUrlIsListingUrl | src/utils/jenkinsFolder.ts:103-104 | a job's detail URL is the folder listing URL of the same name, except for the empty name, which gives `/job//api/json` |
| JenkinsFolder.JobInfoUrl | src/utils/jenkinsFolder.ts:103-104 | the detail URL: `/job/`, the full name with every `/` rewritten to `/job/`, then `/api/json` |
| JenkinsFolder.LastBuildUrl | src/utils/jenkinsFolder.ts:118-119 | the last-build URL: `/job/`, the rewritten full name, then `/lastBuild/api/json` |
| JenkinsFolder.LastBuildUrlSegments | src/utils/jenkinsFolder.ts:118-119 | a full name of slash-free segments is fetched at one `/job/<segment>` per segment, then `/api/json` for its details or `/lastBuild/api/json` for its last build |
| JenkinsFolder.GetJobInfo | src/utils/jenkinsFolder.ts:99-109 | success exactly when the server answers at `/job/<rewritten name>/api/json`, with that answer; otherwise an error naming the job |
| JenkinsFolder.GetLastBuild | src/utils/jenkinsFolder.ts:114-124 | success exactly when the server answers at `/job/<rewritten name>/lastBuild/api/json`, with that answer; otherwise an error naming the job |
| JenkinsFolder.IsFolder | src/utils/jenkinsFolder.ts:129-138 | an item is a folder exactly when its class is one of the four folder classes |
| JenkinsFolder.IsFolderExact | src/utils/jenkinsFolder.ts:129-138 | folder detection is exact membership: `hudson.model.Folder` is a folder; `hudson.model.FolderProperty`, a workflow job and the empty class are not |
| JenkinsFolder.DeeperHasFewerKeys | src/utils/jenkinsFolder.ts:80-83 | the recursion into a folder terminates: a longer path leaves strictly fewer server paths to visit |
| JenkinsFolder.GetAllJobs | src/utils/jenkinsFolder.ts:91-94 | the result holds only jobs of the traversal, and every job of the traversal is in it |
| JenkinsFolder.GetFolderStructure | src/utils/jenkinsFolder.ts:154-157 | the result holds only traversal nodes at most `maxLevel` deep, and every such node is in it |
| JenkinsFolder.FindJobsByName | src/utils/jenkinsFolder.ts:143-149 | exactly the matching jobs of the traversal: every result is a job whose name or full name contains the term, ignoring case, and every such job is a result |
| JenkinsFolder.FindEverything | src/utils/jenkinsFolder.ts:143-149 | the empty term finds every job |
| JenkinsFolder.FindIgnoresCase | src/utils/jenkinsFolder.ts:145-148 | searching for a term and for its lower-case form give the same jobs |
| JenkinsFolder.FindIsFullNameSearch | src/utils/jenkinsFolder.ts:145-148 | the name test adds nothing to the full-name test, so a nested job is also found by a term in its folder's name |
| FolderFixtures.BackendListing | tests/mocks/jenkinsData.ts:50-67 | the `backend` folder of the mock server yields `api-service` and `database-migration` at level 1 with full names `backend/...` |
| FolderFixtures.FixtureTraversal | tests/mocks/jenkinsData.ts:14-67 | the mock server is walked in pre-order: `test-job-1`, `backend`, `backend/api-service`, `backend/database-migration`, `frontend-build` |
| FolderFixtures.BrokenBackendTraversal | src/utils/jenkinsFolder.ts:49-52 | when the `backend` listing fails, the folder is kept with an empty subtree and its siblings still follow |
| FolderFixtures.FixtureJobs | src/utils/jenkinsFolder.ts:91-94 | `getAllJobs` on the mock server drops the folder and keeps the four jobs in order, `test-job-1` first |
| FolderFixtures.FixtureSearch | tests/jenkinsFolder.test.ts:170-175 | searching `api` on the mock server finds `backend/api-service` alone |
| Config.ConfigFileName | src/utils/config.ts:67 | a profile is stored in `<name>.json` |
| Config.ConfigFileNameInjective | src/utils/config.ts:67 | different profile names, compared as strings, give different file names |
| Config.ListConfigs | src/utils/config.ts:56-64 | an unreadable directory lists nothing; otherwise at most one name per directory entry |
| Config.ListConfigsConcat | src/utils/config.ts:58-60 | the listing of two runs of entries is the listing of the first followed by the listing of the second, so directory order is kept |
| Config.ListConfigsSingle | src/utils/config.ts:58-60 | one entry is listed, with its first `.json` removed, exactly when it ends in `.json` |
| Config.ListedName | src/utils/config.ts:60 | the listed name is the file name with its first `.json` removed |
| Config.ListThenSkip | src/utils/config.ts:58-60 | an example shape: three `.json` entries followed by two other entries list the three names, in order |
| Config.ListedNameOfFile | src/utils/config.ts:60 | when `.json` occurs in a file name only as its ending, the listed name is the profile's name |
| Config.ListConfigsFixture | tests/config.test.ts:94-107 | three profile files, `.current` and `README.md` list as `production`, `staging`, `development` |
| Config.ListedNameMangles | src/utils/config.ts:60 | the profile `x.jsonb` is stored in `x.jsonb.json` and listed as `xb.json` |
| Config.ProfileName | src/utils/config.ts:60 | the corrected naming: the name of a `.json` file is the profile whose file it is |
| Config.ListProfiles | src/utils/config.ts:56-64 | the corrected listing: an unreadable directory lists nothing; otherwise the `.json` entries with the trailing extension cut off |
| Config.ProfileNameOfFile | src/utils/config.ts:56-64 | with the trailing extension cut off, every profile is listed under the name it was saved under |
| Config.ListProfilesFindsFiles | src/utils/config.ts:56-64 | each name of the corrected listing has its file among the directory entries it was listed from |
| Config.ListingsAgree | src/utils/config.ts:56-64 | the listing as written and the corrected one agree on every directory whose `.json` files carry the extension only at the end |
| Config.ListedProfileLoads | src/utils/config.ts:71-85 | listing the store's own directory, each name of the corrected listing has its file in the store and loads as that file's parsed content |
| Config.CurrentOf | src/utils/config.ts:110-121 | the current-config file's content is trimmed; a missing or blank file names no profile, and a named profile is non-empty and trimmed |
| Config.CurrentOfWritten | src/utils/config.ts:116-117 | a trimmed non-empty name written to the current-config file reads back unchanged |
| Config.CurrentOfPadded | src/utils/config.ts:116-117 | a name padded with white space reads back trimmed (` prod\n` as `prod`), and a file of spaces names no profile |
| Config.ConfigManager.constructor | src/utils/config.ts:35-39 | the store starts from the given directory contents and current-config file |
| Config.ConfigManager.LoadConfig | src/utils/config.ts:71-85 | a profile with a file loads as that file's parsed content (none when it does not parse); a profile without a file does not load |
| Config.ConfigManager.CurrentConfig | src/utils/config.ts:110-121 | a current profile is the trimmed content of an existing current-config file |
| Config.ConfigManager.GetActiveConfig | src/utils/config.ts:148-155 | the profile the current-config file names, loaded; none when there is no current profile |
| Config.ConfigManager.SaveConfig | src/utils/config.ts:66-69 | exactly the profile's file is (over)written and the current-config file is untouched; every other profile loads as before, and a profile whose serialisation parses back loads as saved |
| Config.ConfigManager.DeleteConfig | src/utils/config.ts:87-108 | `true` exactly when the file existed; then exactly that file goes, and the current-config file goes only when it names this profile; afterwards the profile no longer loads and every other profile loads as before |
| Config.ConfigManager.SetCurrentConfig | src/utils/config.ts:123-136 | the current-config file is written only when the profile loads; no profile file changes, and afterwards a trimmed name is the active profile |
| Config.GetJenkinsConfig | src/utils/config.ts:162-186 | the active profile wins; otherwise the `env-fallback` profile, built exactly when `JENKINS_URL`, `JENKINS_USER` and `JENKINS_TOKEN` are all non-empty |
| Formatters.Breakdown | src/utils/formatters.ts:88-91 | minutes and seconds below 60, and hours, minutes and seconds add up to the whole seconds |
| Formatters.BreakdownUnique | src/utils/formatters.ts:88-99 | only one hours/minutes/seconds reading with minutes and seconds below 60 fits a duration |
| Formatters.Duration | src/utils/formatters.ts:88-99 | `duration` prints the unique clock reading, leaving out leading zero fields |
| Formatters.DurationUnderASecond | tests/formatters.test.ts:74-82 | `0` and `1500` print as `0s` and `1s` |
| Formatters.DurationMinutes | tests/formatters.test.ts:76 | `65000` prints as `1m 5s` |
| Formatters.DurationHours | tests/formatters.test.ts:77 | `3665000` prints as `1h 1m 5s` |
| Formatters.BuildStatus | src/utils/formatters.ts:133-146 | `SUCCESS`, `FAILURE`, `UNSTABLE` and `ABORTED` are shown as `✓ SUCCESS` in green, `✗ FAILURE` in red, `⚠ UNSTABLE` in yellow and `⊗ ABORTED` in gray; the status always appears in the text, and any other status is gray |
| Formatters.BuildStatusUnknown | src/utils/formatters.ts:143-144 | an unknown status is shown as `? <status>` in gray |
| Formatters.Separator | src/utils/formatters.ts:68 | a blue line of `length` copies of the character |
| Formatters.DefaultSeparator | src/utils/formatters.ts:68 | the default separator is 80 `━` |
| Formatters.ValueOrEmpty | src/utils/formatters.ts:62 | a non-empty value is shown as it is; a missing or empty one as the placeholder in gray |
| Formatters.Field | src/utils/formatters.ts:61-63 | a bold caption, a space, then the value or the placeholder |
| Formatters.Boolean | src/utils/formatters.ts:151-153 | the yes text in green for true, the no text in red for false |
| Formatters.DefaultValue | src/utils/formatters.ts:158-163 | the text is always `String(value)`; booleans are green or red, anything else yellow |
| Formatters.RenderRows | src/utils/formatters.ts:177-181 | the table's text is the rows' `caption value` texts joined by line breaks |
| Formatters.OneLinePerRow | src/utils/formatters.ts:177-181 | rows without line breaks come back one per line, in order, when the table is split at line breaks |
| Formatters.RenderAppend | src/utils/formatters.ts:172-181 | appending a row appends its line, after a line break when there were rows already |
| Formatters.TableBuilder.constructor | src/utils/formatters.ts:169-170 | a new table has no rows |
| Formatters.TableBuilder.Add | src/utils/formatters.ts:172-175 | exactly one row is appended, with the placeholder for a missing value; the builder itself is returned and the built text grows by one line |
| Formatters.TableBuilder.Build | src/utils/formatters.ts:177-181 | the rows' lines joined by line breaks |
| Build.Coerce | src/commands/build.ts:132-138 | `true`/`false` in any case on the untrimmed value become booleans; anything else becomes the trimmed string |
| Build.PairEntry | src/commands/build.ts:127-130 | a piece is skipped exactly when the text before its first `=` is empty |
| Build.ParamsOf | src/commands/build.ts:122-143 | the dictionary of the comma-separated pieces, read in order |
| Build.ParseCliParams | src/commands/build.ts:122-143 | the loop over the comma-separated pieces builds exactly the dictionary of the pieces read in order |
| Build.PairAtFirstEquals | src/commands/build.ts:127-128 | `key=value` splits at the first `=` and the value keeps any further `=` |
| Build.PairWithoutEquals | src/commands/build.ts:127-137 | a piece without `=` stores the empty string under its trimmed key |
| Build.CollectKeys | src/commands/build.ts:126-140 | the keys are exactly the keys of the pieces that were not skipped |
| Build.LastOccurrenceWins | src/commands/build.ts:126-140 | a repeated key takes the value of its last occurrence |
| Build.PaddedIsText | src/commands/build.ts:132-137 | the boolean test sees the untrimmed value, so a value with leading white space stays a string |
| Build.PaddedWordIsText | src/commands/build.ts:132-137 | a word after one space is kept as that word, a string, even when the word is `true` or `false` |
| Build.PaddedTrueIsText | src/commands/build.ts:132-137 | ` true` is the string `true`, not the boolean |
| Build.UpperCaseTrue | src/commands/build.ts:132-133 | `TRUE` is the boolean true |
| Build.PromptKindOf | src/commands/build.ts:90-110 | `boolean`, `choice`, `password` and `text` map to confirm, list (with the choices or none), password and editor; any other type to input |
| Build.QuestionFor | src/commands/build.ts:83-87 | the question keeps the name and default; its message is the description, or the name when the description is missing or empty |
| Build.Questions | src/commands/build.ts:82-113 | one question per parameter, in order, each with the parameter's name, message, default and prompt kind |
| Build.PlanBuild | src/commands/build.ts:12-35 | a job that cannot be built stops; a job without parameters builds with `{}`; otherwise a non-empty `--params` is parsed instead of asking, and asking poses exactly the parameters' questions, in order |
| FullNames.ParentFolder | src/commands/searchJobs.ts:83-84 | the segments before the last one, joined by `/`; the root for a name without `/` |
| FullNames.LeafName | src/commands/searchJobs.ts:83-84 | the last segment has no `/` |
| FullNames.MoreThanOneSegment | src/commands/searchJobs.ts:83-84 | a full name has more than one segment exactly when it contains `/` |
| FullNames.ParentThenLeaf | src/commands/fetchJobs.ts:21-23 | a name with `/` is its parent folder, a `/` and its last segment |
| FullNames.RootName | src/commands/searchJobs.ts:83-84 | a name without `/` has the root as its folder and is its own last segment |
| FullNames.ChildName | src/commands/searchJobs.ts:83-84 | a name put under a folder is taken apart into that folder and that name |
| ListJobs.WithinLevel | src/commands/listJobs.ts:16-18 | no depth keeps every item; a depth keeps exactly the items at most that deep |
| ListJobs.Shown | src/commands/listJobs.ts:21-23 | only an explicit `false` hides folders, and then exactly the jobs remain |
| ListJobs.DisplayItems | src/commands/listJobs.ts:16-23 | the depth filter, then the folder filter |
| ListJobs.DisplayIsOneFilter | src/commands/listJobs.ts:16-23 | the two filters together are one order-preserving filter |
| ListJobs.SummaryOf | src/commands/listJobs.ts:40-47 | the folder count is printed exactly when folders are not hidden |
| ListJobs.TotalsCoverDisplay | src/commands/listJobs.ts:40-41 | jobs plus folders counted equal the items displayed |
| ListJobs.HiddenFoldersCountZero | src/commands/listJobs.ts:21-23 | with folders hidden no folder is displayed and every displayed item is a job |
| ListJobs.SummaryAddsUp | src/commands/listJobs.ts:28-47 | the printed totals add up to the lines printed |
| ListJobs.ItemIcon | src/commands/listJobs.ts:54-79 | the folder icon is used exactly for folders; a job gets `✅`, `❌`, `⚠️`, `⚪` (grey, disabled), `🚫` or `🔄` (the three running colours) for its colour, and `🔹` for a missing or unknown one |
| ListJobs.JobStatus | src/commands/listJobs.ts:81-104 | the suffix is empty exactly for a missing or unknown colour; `blue`, `red`, `yellow` and `aborted` give ` ✓` in green, ` ✗` in red, ` ⚠` in yellow and ` 🚫` in red; grey and disabled give ` ⚪` in gray; the running colours give ` 🔄` in cyan, red and yellow |
| ListJobs.Indent | src/commands/listJobs.ts:29 | two spaces per level |
| ListJobs.ItemLine | src/commands/listJobs.ts:29-36 | indentation, icon, a space, the name (bold blue for a folder, white for a job) and the status suffix |
| ListJobs.ListReportOf | src/commands/listJobs.ts:10-47 | an empty tree gives the warning alone; otherwise one line per displayed item, in order, and the summary |
| ListJobs.ListJobs | src/commands/listJobs.ts:4-47 | the report on the whole walk from the root |
| SearchJobs.Parents | src/commands/searchJobs.ts:82-84 | one parent folder per job |
| SearchJobs.ParentOf | src/commands/searchJobs.ts:83-84 | a job's group is the parent folder of its full name |
| SearchJobs.GroupJobsByParentFolder | src/commands/searchJobs.ts:79-89 | the counting loop builds exactly the tally of the jobs' parent folders |
| SearchJobs.GroupCounts | src/commands/searchJobs.ts:79-89 | every job's folder has a group; each count is that folder's number of jobs, at least one; the counts add up to the number of jobs |
| SearchJobs.RootJobsGroupAtRoot | src/commands/searchJobs.ts:83-84 | a top-level job of a server with slash-free names is counted under the root folder |
| SearchJobs.GroupLabel | src/commands/searchJobs.ts:39 | the root group is labelled `Raíz`; any other folder is its own label |
| SearchJobs.EntryFor | src/commands/searchJobs.ts:18-31 | the location line is printed exactly when the full name differs from the name; the main line is the indentation, `🔹 `, the highlighted name and the status suffix |
| SearchJobs.ReportFor | src/commands/searchJobs.ts:10-41 | no match gives the warning alone; otherwise one entry per match, in order; the per-folder summary appears exactly above ten matches and is the tally of parent folders |
| SearchJobs.SearchJobs | src/commands/searchJobs.ts:4-41 | the warning appears exactly when `findJobsByName` finds nothing, and the count is the number found |
| ShowFolders.EffectiveMaxLevel | src/commands/showFolders.ts:6 | a missing or zero depth becomes 3; any other depth is kept |
| ShowFolders.Folders | src/commands/showFolders.ts:9-10 | the folders of the folder structure at the effective depth |
| ShowFolders.FoldersOfTraversal | src/commands/showFolders.ts:9-10 | the folders shown are the traversal's folders no deeper than the depth, in traversal order |
| ShowFolders.Levels | src/commands/showFolders.ts:30-31 | one level per folder |
| ShowFolders.LevelStats | src/commands/showFolders.ts:29-32 | the counting loop builds exactly the tally of the folders' levels |
| ShowFolders.LevelStatsCounts | src/commands/showFolders.ts:29-32 | every folder's level has a count; each count is that level's number of folders, at least one; the counts add up to the number of folders |
| ShowFolders.LevelLabel | src/commands/showFolders.ts:36 | `Raíz` exactly for level 0; any other level is `Nivel <n>` |
| ShowFolders.LevelLabelsDistinct | src/commands/showFolders.ts:35-38 | different levels get different labels |
| ShowFolders.FolderLines | src/commands/showFolders.ts:20-24 | two lines per folder: the indented name, then the indented full name |
| ShowFolders.ShowFolders | src/commands/showFolders.ts:6-38 | the warning appears exactly when there is no folder; otherwise one entry per folder shown, in order, each its two lines; the total is the number of folders shown and the statistics are their level tally |
| LastBuild.ValidateAndGetBuildData | src/commands/lastBuild.ts:19-32 | the job's details are checked first, then buildability, then the last build; the build is fetched only when all three pass |
| LastBuild.ErrorMessage | src/commands/lastBuild.ts:14-27 | every stop's message names the job; a failed request's message ends with `: ` and the client's message |
| LastBuild.StopNamesJob | src/commands/lastBuild.ts:14-27 | whatever stops the command, the printed message names the job that was asked for |
| LastBuild.BuildResultDisplay | src/commands/lastBuild.ts:87-102 | the five known results have their own words and colour; any other result is shown as it is, in gray |
| LastBuild.ResultLine | src/commands/lastBuild.ts:41-46 | a present result is shown under `Resultado:`; otherwise the build is shown as running |
| LastBuild.TimingOf | src/commands/lastBuild.ts:49-70 | the duration is shown only when positive, as whole minutes and seconds below 60 that bracket it; the end time only with a start and a duration; the estimate only while no result exists |
| LastBuild.DurationReadingUnique | src/commands/lastBuild.ts:51-52 | only one minutes-and-seconds reading fits a duration |
| LastBuild.EstimateOnlyWhileRunning | src/commands/lastBuild.ts:66 | a finished build never shows an estimate |
| LastBuild.IsCauseAction | src/commands/lastBuild.ts:76 | an action lists causes when its class contains `CauseAction` |
| LastBuild.CausesOf | src/commands/lastBuild.ts:75-77 | the causes of the cause actions, in order; a cause action without causes adds none |
| LastBuild.CausesOfConcat | src/commands/lastBuild.ts:75-77 | collecting causes distributes over concatenated action lists |
| LastBuild.CausesOfMembers | src/commands/lastBuild.ts:75-77 | a cause is collected exactly when a cause action lists it |
| LastBuild.CauseDisplay | src/commands/lastBuild.ts:104-124 | the first of five class names the cause's class contains decides its line; otherwise the short description or `Causa desconocida` |
| LastBuild.UnclassifiedCause | src/commands/lastBuild.ts:105-123 | a cause without a class falls through to its short description |
| LastBuild.CauseLines | src/commands/lastBuild.ts:72-85 | nothing without actions or causes; otherwise a heading and one bullet per cause, in order |
| LastBuild.LastBuild | src/commands/lastBuild.ts:4-17 | the report exists exactly when validation succeeds, and otherwise carries validation's error; on success it holds the job's name (full name first), the build's number and URL, its result line, its timing and its cause lines |
| JobInfo.JobTypeDisplay | src/commands/jobInfo.ts:54-68 | the first of four class names the class contains decides the type; otherwise the class itself in gray |
| JobInfo.IsContainerClass | src/commands/jobInfo.ts:33 | a container is a class containing `MultiBranchProject` or `Folder` |
| JobInfo.TypeLineIsContainer | src/commands/jobInfo.ts:33-34 | where the type line is printed, it says multi-branch pipeline or folder |
| JobInfo.JobStatusDisplay | src/commands/jobInfo.ts:70-92 | each of the nine known colours has its fixed text and style (`blue` as `✅ Exitoso` in green, `red` as `❌ Fallido` in red, `yellow` as `⚠️ Inestable` in yellow, `aborted` as `🚫 Abortado` in red, grey and disabled as `⚪ Deshabilitado` in gray, and the three running colours as `🔄 Ejecutándose (…)` in cyan, red and yellow); any other colour as it is, in gray |
| JobInfo.StatusViewsAgree | src/commands/jobInfo.ts:70-92 | the `info` status falls back to the bare colour exactly for the colours the `list` status suffix leaves empty |
| JobInfo.Report | src/commands/jobInfo.ts:12-47 | full-name fallback to the name asked for; description or placeholder; last build `#n` or `Ninguno`; type and sub-items only for containers; status only with a colour; buildable as `Sí`/`No` |
| JobInfo.JobInfo | src/commands/jobInfo.ts:4-52 | the error exactly when the details cannot be fetched; otherwise the report on them |
| FetchJobs.JobNames | src/commands/fetchJobs.ts:9-10 | one saved name per job, the job's full name, in traversal order |
| FetchJobs.SavedNamesAreJobs | src/commands/fetchJobs.ts:9-12 | every saved name is the full name of a job of the tree, and every job of the tree is saved |
| FetchJobs.Examples | src/commands/fetchJobs.ts:19 | the first five names, or all when there are fewer |
| FetchJobs.ExampleOf | src/commands/fetchJobs.ts:21-26 | a name with `/` is shown as its folder and last segment, which put back together give the name; otherwise it is shown as it is |
| FetchJobs.FetchReportOf | src/commands/fetchJobs.ts:12-31 | all names are saved; at most five examples, in order; the `... y N más` line appears exactly above five names, with N the rest |
| FetchJobs.FetchJobs | src/commands/fetchJobs.ts:5-31 | the report on the full names of every job of the walk |
| FetchJobs.FixtureNames | tests/mocks/jenkinsData.ts:14-67 | on the mock server the saved names are the four jobs' full names, without the folder |

## Left out

- HTTP requests, the axios client and its error text are left out. Each request is a lookup in a map keyed by its URL. The client's message for a failed request is a parameter of `LastBuild.ErrorMessage`.
- Console output, the logger and `process.exit` are left out. Each command returns a report value holding what it prints.
- The file system is left out. The profile directory is a map from file name to content, and the current-config file is an optional string. A failed read, write or delete has no model; each call succeeds.
- `JSON.parse` and `JSON.stringify` are abstract functions of the store (`parse` is partial).
- The order of `readdirSync` is the order of the given entries.
- Detection of `~/.butler-ci-cli` and creation of its directories in the constructor are left out.
- `getJobParameters`, `buildJob`, the `inquirer` prompts themselves and the confirmation step of `build` are not part of this model. `Build.PlanBuild` stops where the confirmation starts.
- `formatters.date`/`timestamp` and `toLocaleString` are not modelled: locale date formatting. `LastBuild.TimingOf` returns the start and end timestamps in milliseconds instead.
- `highlightSearchTerm` builds a regular expression from the term. It is a parameter of `SearchJobs.EntryFor`.
- ReportFor: takes highlighting to be total. In the source, a term that is not a valid regular expression (`c++`, `(`, `[`) still finds jobs as plain text. The header and the count are printed, then the first entry throws, and the command ends with `❌ Error: Invalid regular expression…` without entries or summary. The model lists every entry.
- `chalk` escape codes are left out. A printed line is a sequence of segments, each with a named style.
- `printHeader`, `formatters.url`, `jobName`, `highlight`, `success`/`error`/`warning`/`info` and `buildNumber` are left out: they wrap one string in one style.
- `Strings.ToLower` folds only ASCII letters. JavaScript's `toLowerCase` also folds other alphabets.
- The order of `Object.entries` over the search groups and the level statistics is left out. Both are maps, so the model states counts, not print order.
- The summary lines `📁 <folder>: <n> jobs` and `<level>: <count>` are not built. The reports carry the counts as maps, and the labels those lines print are stated separately by `SearchJobs.GroupLabel` and `ShowFolders.LevelLabel`.
- Durations, timestamps and estimates are integers. The source also accepts fractional numbers.
- `Formatters.Duration` takes a non-negative number of milliseconds.
- `LastBuild.TimingOf` divides a negative estimate with Dafny's Euclidean division. It agrees with `Math.floor` for every whole estimate.
- `JenkinsFolder.Traverse` takes every listed name to be non-empty (`ItemName`), as Jenkins guarantees.
- `JenkinsFolder.TraversePlaced` states the level equation only for servers whose names contain no `/`, which Jenkins refuses in item names.
- `SearchJobs.GroupJobsByParentFolder` and `ShowFolders.LevelStats` return maps. The source's `Record<number, number>` keys levels by their decimal strings, and `ShowFolders.LevelLabel` is stated on that key.
- ConfigFileNameInjective: holds for names as strings only. The source builds the file path with `path.join`, which normalises it, so names such as `./x`, `a/../x` and `x` share one file.
- SaveConfig: the promise that every other profile loads as before holds only for names that `path.join` does not normalise onto one another (see `ConfigFileNameInjective`).
- DeleteConfig: the promise that every other profile loads as before holds only for names that `path.join` does not normalise onto one another (see `ConfigFileNameInjective`).
- ParseCliParams: stores every key. In JavaScript, assigning to the key `__proto__` of a plain object changes its prototype instead of adding a key, so `__proto__=x` yields `{}`; the model keeps the entry.
- GroupJobsByParentFolder: counts a folder named `__proto__` like any other, although the source's plain-object record does not keep such a key. A folder named after any other inherited `Object.prototype` member (`constructor`, `toString`, `valueOf`, `hasOwnProperty`, …) counts 1 in the model. In the source, its first read returns the inherited function, so the count becomes that function's text followed by `1`, and the summary prints it.

## Findings

| source | as written | input that shows it | evidently intended | confidence | as-written member | corrected member |
|---|---|---|---|---|---|---|
| src/utils/config.ts:60 | `file.replace('.json', '')` removes the first `.json` anywhere in the file name | the profile `x.jsonb` is saved as `x.jsonb.json` and listed as `xb.json`, which does not load | cut off the trailing `.json` only, so each profile is listed under the name it was saved under | not executed | Config.ListedNameMangles | Config.ProfileNameOfFile |
| src/utils/jenkinsFolder.ts:66 | the child's full name is the bare name at the root, so an item with an empty name gets the path `""` | a root folder item named `""`: its full name is `""`, its listing URL is the root's `/api/json`, and `getAllJobsRecursive` lists the root again without end | item names are non-empty (as Jenkins ensures), so every recursion goes one path segment deeper and the walk terminates | not executed | JenkinsFolder.EmptyNameRelistsRoot | JenkinsFolder.ChildPathLonger |
