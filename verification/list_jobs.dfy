/**
 * The `list` command: the whole item tree, cut at an optional depth, with the
 * folders optionally hidden, one line per item and a job/folder summary.
 */
module ListJobs {
  import opened Wrappers
  import opened Strings
  import opened Seqs
  import opened Styling
  import opened JenkinsFolder

  /** The command's options; an absent option is `None`. */
  datatype ListOptions = ListOptions(showFolders: Option<bool>, maxLevel: Option<int>)

  /** The level filter: everything when no depth is given, else the items at most that deep. */
  function WithinLevel(items: seq<JobTreeItem>, maxLevel: Option<int>): (r: seq<JobTreeItem>)
    ensures maxLevel.None? ==> r == items
    ensures maxLevel.Some? ==> forall i :: 0 <= i < |r| ==> r[i] in items && r[i].level <= maxLevel.value
    ensures maxLevel.Some? ==> forall i :: 0 <= i < |items| && items[i].level <= maxLevel.value ==> items[i] in r
  {
    if maxLevel.None? then items
    else
      var shallow := (x: JobTreeItem) => x.level <= maxLevel.value;
      FilterMembers(items, shallow);
      Filter(items, shallow)
  }

  /** The folder filter: only an explicit `false` hides the folders. */
  function Shown(items: seq<JobTreeItem>, showFolders: Option<bool>): (r: seq<JobTreeItem>)
    ensures showFolders != Some(false) ==> r == items
    ensures showFolders == Some(false) ==> forall i :: 0 <= i < |r| ==> r[i] in items && r[i].kind == Job
    ensures showFolders == Some(false) ==> forall i :: 0 <= i < |items| && items[i].kind == Job ==> items[i] in r
  {
    if showFolders == Some(false) then
      FilterMembers(items, IsJob);
      Filter(items, IsJob)
    else items
  }

  /** The items the command prints: the level filter, then the folder filter. */
  function DisplayItems(items: seq<JobTreeItem>, options: ListOptions): seq<JobTreeItem> {
    Shown(WithinLevel(items, options.maxLevel), options.showFolders)
  }

  /** The single test the two filters amount to. */
  predicate Kept(options: ListOptions, x: JobTreeItem) {
    (options.maxLevel.None? || x.level <= options.maxLevel.value)
    && (options.showFolders != Some(false) || x.kind == Job)
  }

  /** The two filters together are one order-preserving filter by `Kept`. */
  lemma DisplayIsOneFilter(items: seq<JobTreeItem>, options: ListOptions)
    ensures DisplayItems(items, options) == Filter(items, x => Kept(options, x))
  {
    var kept := (x: JobTreeItem) => Kept(options, x);
    var foldersHidden := options.showFolders == Some(false);
    if options.maxLevel.None? {
      if foldersHidden {
        FilterSame(items, IsJob, kept);
      } else {
        FilterAll(items, kept);
      }
    } else {
      var shallow := (x: JobTreeItem) => x.level <= options.maxLevel.value;
      if foldersHidden {
        FilterFilter(items, shallow, IsJob, kept);
      } else {
        FilterSame(items, shallow, kept);
      }
    }
  }

  predicate IsFolderItem(x: JobTreeItem) {
    x.kind == Folder
  }

  /** The summary: the job count, and the folder count unless folders are hidden. */
  datatype Summary = Summary(jobs: nat, folders: Option<nat>)

  function SummaryOf(display: seq<JobTreeItem>, showFolders: Option<bool>): (r: Summary)
    ensures r.folders.Some? <==> showFolders != Some(false)
  {
    Summary(|Filter(display, IsJob)|,
      if showFolders != Some(false) then Some(|Filter(display, IsFolderItem)|) else None)
  }

  /** Every displayed item is counted once, as a job or as a folder. */
  lemma TotalsCoverDisplay(items: seq<JobTreeItem>, options: ListOptions)
    ensures |Filter(DisplayItems(items, options), IsJob)|
          + |Filter(DisplayItems(items, options), IsFolderItem)| == |DisplayItems(items, options)|
  {
    FilterPartition(DisplayItems(items, options), IsJob, IsFolderItem);
  }

  /** With the folders hidden there is no folder left to count. */
  lemma HiddenFoldersCountZero(items: seq<JobTreeItem>, options: ListOptions)
    requires options.showFolders == Some(false)
    ensures |Filter(DisplayItems(items, options), IsFolderItem)| == 0
    ensures |Filter(DisplayItems(items, options), IsJob)| == |DisplayItems(items, options)|
  {
    var display := DisplayItems(items, options);
    FilterNone(display, IsFolderItem);
    FilterPartition(display, IsJob, IsFolderItem);
  }

  // ---------------------------------------------------------------------------
  // One line per item

  /** `getItemIcon`: the folder icon for any folder, otherwise an icon for the job's colour. */
  function ItemIcon(item: JobTreeItem): (r: string)
    ensures r == "📁" <==> item.kind == Folder
    ensures item.kind != Folder && item.color == Some("blue") ==> r == "✅"
    ensures item.kind != Folder && item.color == Some("red") ==> r == "❌"
    ensures item.kind != Folder && item.color == Some("yellow") ==> r == "\U{26A0}\U{FE0F}"
    ensures item.kind != Folder && item.color.GetOr("") in ["grey", "disabled"] ==> r == "⚪"
    ensures item.kind != Folder && item.color == Some("aborted") ==> r == "🚫"
    ensures item.kind != Folder && item.color.GetOr("") in ["blue_anime", "red_anime", "yellow_anime"] ==> r == "🔄"
    ensures item.kind != Folder && item.color.GetOr("") !in KnownColors ==> r == "🔹"
  {
    if item.kind == Folder then "📁"
    else match item.color.GetOr("")
      case "blue" => "✅"
      case "red" => "❌"
      case "yellow" => "\U{26A0}\U{FE0F}"
      case "grey" => "⚪"
      case "disabled" => "⚪"
      case "aborted" => "🚫"
      case "blue_anime" => "🔄"
      case "red_anime" => "🔄"
      case "yellow_anime" => "🔄"
      case _ => "🔹"
  }

  /** The colours Jenkins reports that the status suffix knows. */
  const KnownColors: seq<string> :=
    ["blue", "red", "yellow", "grey", "disabled", "aborted", "blue_anime", "red_anime", "yellow_anime"]

  /** `getJobStatus`: a coloured suffix for a known colour, nothing for a missing or unknown one. */
  function JobStatus(color: Option<string>): (r: Segment)
    ensures r.text == "" <==> !(color.Some? && color.value in KnownColors)
    ensures color == Some("grey") || color == Some("disabled") ==> r == Segment(Gray, " ⚪")
    ensures color.Some? && color.value in ["blue_anime", "red_anime", "yellow_anime"] ==> r.text == " 🔄"
    ensures color == Some("blue") ==> r == Segment(Green, " ✓")
    ensures color == Some("red") ==> r == Segment(Red, " ✗")
    ensures color == Some("yellow") ==> r == Segment(Yellow, " ⚠")
    ensures color == Some("aborted") ==> r == Segment(Red, " 🚫")
    ensures color == Some("blue_anime") ==> r.style == Cyan
    ensures color == Some("red_anime") ==> r.style == Red
    ensures color == Some("yellow_anime") ==> r.style == Yellow
  {
    if color.None? || color.value == "" then Segment(Plain, "")
    else match color.value
      case "blue" => Segment(Green, " ✓")
      case "red" => Segment(Red, " ✗")
      case "yellow" => Segment(Yellow, " ⚠")
      case "grey" => Segment(Gray, " ⚪")
      case "disabled" => Segment(Gray, " ⚪")
      case "aborted" => Segment(Red, " 🚫")
      case "blue_anime" => Segment(Cyan, " 🔄")
      case "red_anime" => Segment(Red, " 🔄")
      case "yellow_anime" => Segment(Yellow, " 🔄")
      case _ => Segment(Plain, "")
  }

  /** `"  ".repeat(level)`: two spaces per level. */
  function Indent(level: nat): (r: string)
    ensures |r| == 2 * level
    ensures forall k :: 0 <= k < |r| ==> r[k] == ' '
  {
    Repeat("  ", level)
  }

  /** One printed line: indentation, icon, the name (blue and bold for a folder), the status suffix. */
  function ItemLine(item: JobTreeItem): (r: Line)
    ensures Text(r) == Indent(item.level) + ItemIcon(item) + " " + item.name + JobStatus(item.color).text
    ensures |r| == 3 && r[1].style == (if item.kind == Folder then BoldBlue else White)
  {
    var head := Segment(Plain, Indent(item.level) + ItemIcon(item) + " ");
    var name := Segment(if item.kind == Folder then BoldBlue else White, item.name);
    TextOfThree(head, name, JobStatus(item.color));
    [head, name, JobStatus(item.color)]
  }

  // ---------------------------------------------------------------------------
  // The command

  /** What `list` prints: a warning for an empty tree, else the lines and the summary. */
  datatype ListReport = NoItems | Report(lines: seq<Line>, summary: Summary)

  /**
   * The emptiness test is on the whole tree, before filtering: a tree whose items are all
   * filtered out still prints a listing, with zero totals.
   */
  function ListReportOf(items: seq<JobTreeItem>, options: ListOptions): (r: ListReport)
    ensures r.NoItems? <==> items == []
    ensures r.Report? ==> |r.lines| == |DisplayItems(items, options)|
    ensures r.Report? ==> forall i :: 0 <= i < |r.lines| ==> r.lines[i] == ItemLine(DisplayItems(items, options)[i])
    ensures r.Report? ==> (r.summary.folders.Some? <==> options.showFolders != Some(false))
  {
    if items == [] then NoItems
    else
      var display := DisplayItems(items, options);
      Report(Map(display, ItemLine), SummaryOf(display, options.showFolders))
  }

  /** `listJobs` against a server: the report on the whole traversal from the root. */
  function ListJobs(server: Server, options: ListOptions): ListReport {
    ListReportOf(Traverse(server, ""), options)
  }

  /** The totals printed add up to the lines printed, whatever the options. */
  lemma SummaryAddsUp(items: seq<JobTreeItem>, options: ListOptions)
    requires items != []
    ensures var r := ListReportOf(items, options);
      r.summary.jobs + r.summary.folders.GetOr(0) == |r.lines|
  {
    var display := DisplayItems(items, options);
    TotalsCoverDisplay(items, options);
    if options.showFolders == Some(false) {
      HiddenFoldersCountZero(items, options);
    }
  }
}
