/**
 * The `folders` command: the folders of the tree down to a depth, two lines per
 * folder, their total and how many there are at each level.
 */
module ShowFolders {
  import opened Wrappers
  import opened Strings
  import opened Seqs
  import opened Styling
  import opened JenkinsFolder
  import ListJobs

  /** The depth used when the option is absent or zero. */
  const DefaultDepth: int := 3

  /** `options?.maxLevel || 3`: a zero depth counts as absent. */
  function EffectiveMaxLevel(option: Option<int>): (r: int)
    ensures option.Some? && option.value != 0 ==> r == option.value
    ensures option.None? || option.value == 0 ==> r == DefaultDepth
  {
    if option.Some? && option.value != 0 then option.value else DefaultDepth
  }

  /** The folders among the items `getFolderStructure` returns for the effective depth. */
  function Folders(server: Server, option: Option<int>): seq<JobTreeItem> {
    Filter(GetFolderStructure(server, EffectiveMaxLevel(option)), ListJobs.IsFolderItem)
  }

  /** The folders shown are the folders of the traversal no deeper than the depth, in traversal order. */
  lemma FoldersOfTraversal(server: Server, option: Option<int>)
    ensures Folders(server, option)
         == Filter(Traverse(server, ""), (x: JobTreeItem) => x.kind == Folder && x.level <= EffectiveMaxLevel(option))
  {
    var depth := EffectiveMaxLevel(option);
    FilterFilter(Traverse(server, ""), (x: JobTreeItem) => x.level <= depth, ListJobs.IsFolderItem,
      (x: JobTreeItem) => x.kind == Folder && x.level <= depth);
  }

  // ---------------------------------------------------------------------------
  // Per-level statistics

  function LevelOf(folder: JobTreeItem): nat {
    folder.level
  }

  function Levels(folders: seq<JobTreeItem>): (r: seq<nat>)
    ensures |r| == |folders|
  {
    Map(folders, LevelOf)
  }

  /** The `levelStats` record: the `forEach` that counts the folders at each level. */
  method LevelStats(folders: seq<JobTreeItem>) returns (stats: map<nat, nat>)
    ensures stats == Tally(Levels(folders))
  {
    stats := map[];
    for i := 0 to |folders|
      invariant stats == Tally(Map(folders[..i], LevelOf))
    {
      var level := folders[i].level;
      MapPrefix(folders, LevelOf, i);
      TallySnoc(Map(folders[..i], LevelOf), level);
      stats := stats[level := (if level in stats then stats[level] else 0) + 1];
    }
    assert folders[..|folders|] == folders;
  }

  /**
   * Every shown folder's level has an entry, each entry is the number of folders at that level,
   * which is positive, and the entries add up to the number of folders.
   */
  lemma LevelStatsCounts(folders: seq<JobTreeItem>)
    ensures forall i :: 0 <= i < |folders| ==> folders[i].level in Tally(Levels(folders))
    ensures forall l :: l in Tally(Levels(folders)) ==> Tally(Levels(folders))[l] == multiset(Levels(folders))[l] > 0
    ensures SumValues(Tally(Levels(folders))) == |folders|
  {
    var ls := Levels(folders);
    TallyCounts(ls);
    TallySum(ls);
    forall i | 0 <= i < |folders| ensures folders[i].level in Tally(ls) {
      assert ls[i] == folders[i].level;
    }
  }

  /** `level === '0' ? 'Raíz' : 'Nivel <level>'`, on the level's decimal key. */
  function LevelLabel(level: nat): (r: string)
    ensures r == "Raíz" <==> level == 0
    ensures level != 0 ==> r == "Nivel " + NatToString(level)
  {
    var key := NatToString(level);
    assert level == 0 ==> key == "0";
    if key == "0" then "Raíz" else "Nivel " + key
  }

  /** Different levels get different labels. */
  lemma LevelLabelsDistinct(a: nat, b: nat)
    requires LevelLabel(a) == LevelLabel(b)
    ensures a == b
  {
    if a != 0 && b != 0 {
      var prefix := "Nivel ";
      assert (prefix + NatToString(a))[|prefix|..] == NatToString(a);
      assert (prefix + NatToString(b))[|prefix|..] == NatToString(b);
      NatToStringValue(a);
      NatToStringValue(b);
    }
  }

  // ---------------------------------------------------------------------------
  // The command

  /** The two lines of a folder: its name in blue and bold, then its full name in gray. */
  function FolderLines(folder: JobTreeItem): (r: seq<Line>)
    ensures |r| == 2
    ensures Text(r[0]) == ListJobs.Indent(folder.level) + "📁 " + folder.name
    ensures Text(r[1]) == ListJobs.Indent(folder.level) + "   📍 " + folder.fullName
  {
    var indent := ListJobs.Indent(folder.level);
    TextOfTwo(Segment(Plain, indent + "📁 "), Segment(BoldBlue, folder.name));
    TextOfTwo(Segment(Plain, indent + "   📍 "), Segment(Gray, folder.fullName));
    [[Segment(Plain, indent + "📁 "), Segment(BoldBlue, folder.name)],
     [Segment(Plain, indent + "   📍 "), Segment(Gray, folder.fullName)]]
  }

  /** What `folders` prints: a warning when there is no folder, else the lines, the total and the counts. */
  datatype FolderReport =
    | NoFolders(depth: int)
    | Report(depth: int, entries: seq<seq<Line>>, total: nat, stats: map<nat, nat>)

  function ShowFolders(server: Server, option: Option<int>): (r: FolderReport)
    ensures r.depth == EffectiveMaxLevel(option)
    ensures r.NoFolders? <==> Folders(server, option) == []
    ensures r.Report? ==> r.total == |r.entries| == |Folders(server, option)|
    ensures r.Report? ==> forall i :: 0 <= i < |r.entries| ==> r.entries[i] == FolderLines(Folders(server, option)[i])
    ensures r.Report? ==> r.stats == Tally(Levels(Folders(server, option)))
  {
    var depth := EffectiveMaxLevel(option);
    var folders := Folders(server, option);
    if folders == [] then NoFolders(depth)
    else Report(depth, Map(folders, FolderLines), |folders|, Tally(Levels(folders)))
  }
}
