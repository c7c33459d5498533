/**
 * A job's full name is its folder path and its own name joined by `/`. The
 * search summary groups jobs by the folder part, and `fetch` shows both parts.
 */
module FullNames {
  import opened Strings

  /** `parts.slice(0, -1).join('/')` when there is more than one segment, else the root `''`. */
  function ParentFolder(fullName: string): string {
    var parts := Split(fullName, '/');
    if |parts| > 1 then Join(parts[..|parts| - 1], '/') else ""
  }

  /** `parts[parts.length - 1]`: the last segment. */
  function LeafName(fullName: string): (r: string)
    ensures '/' !in r
  {
    var parts := Split(fullName, '/');
    parts[|parts| - 1]
  }

  /** A name has more than one segment exactly when it has a `/`. */
  lemma MoreThanOneSegment(fullName: string)
    ensures |Split(fullName, '/')| > 1 <==> '/' in fullName
  {
    if '/' !in fullName {
      SplitNoSep(fullName, '/');
    } else {
      SplitJoin(fullName, '/');
    }
  }

  /** A name with a `/` is its folder, a `/` and its last segment. */
  lemma ParentThenLeaf(fullName: string)
    requires '/' in fullName
    ensures ParentFolder(fullName) + "/" + LeafName(fullName) == fullName
  {
    var parts := Split(fullName, '/');
    SplitJoin(fullName, '/');
    var init := parts[..|parts| - 1];
    assert parts == init + [parts[|parts| - 1]];
    JoinAppend(init, parts[|parts| - 1], '/');
  }

  /** A name without `/` is a root job: no folder, and the leaf is the whole name. */
  lemma RootName(fullName: string)
    requires '/' !in fullName
    ensures ParentFolder(fullName) == "" && LeafName(fullName) == fullName
  {
    SplitNoSep(fullName, '/');
  }

  /** Putting a name under a folder and taking it apart again gives both back. */
  lemma ChildName(folder: string, name: string)
    requires '/' !in name
    ensures ParentFolder(folder + "/" + name) == folder
    ensures LeafName(folder + "/" + name) == name
  {
    SplitAppend(folder, '/', name);
    SplitJoin(folder, '/');
    var parts := Split(folder + "/" + name, '/');
    assert parts[..|parts| - 1] == Split(folder, '/');
  }
}
