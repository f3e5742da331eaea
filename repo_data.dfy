/** The repository snapshot the analyzers read. It is produced by the
    GitHub client, which is not part of this model; here it is plain input. */
module RepoData {
  import opened Wrappers

  /** One entry of the git tree listing: a path relative to the repository
      root and the object type as the API reports it ("blob", "tree", ...). */
  datatype TreeEntry = TreeEntry(path: string, entryType: string)

  predicate IsBlob(e: TreeEntry) {
    e.entryType == "blob"
  }

  /** A contributor's login and total commit count (an `i64` in the source). */
  datatype Contributor = Contributor(login: string, total: int)

  /** The repository metadata the analyzers look at: only the archived flag,
      which the API may leave out. */
  datatype Repository = Repository(archived: Option<bool>)

  datatype RepoSnapshot = RepoSnapshot(
    repository: Repository,
    tree: seq<TreeEntry>,
    contributors: seq<Contributor>,
    readme: Option<string>,
    hasLicense: bool)

  /** Some entry's path satisfies `p` (`tree.iter().any(|entry| p(&entry.path))`). */
  predicate AnyPath(tree: seq<TreeEntry>, p: string -> bool) {
    tree != [] && (p(tree[0].path) || AnyPath(tree[1..], p))
  }

  lemma {:induction false} AnyPathIff(tree: seq<TreeEntry>, p: string -> bool)
    ensures AnyPath(tree, p) <==> exists i :: 0 <= i < |tree| && p(tree[i].path)
  {
    if tree != [] {
      AnyPathIff(tree[1..], p);
      if exists i :: 0 <= i < |tree| && p(tree[i].path) {
        var i :| 0 <= i < |tree| && p(tree[i].path);
        if i > 0 { assert tree[1..][i - 1] == tree[i]; }
      }
      if AnyPath(tree[1..], p) {
        var i :| 0 <= i < |tree[1..]| && p(tree[1..][i].path);
        assert tree[i + 1] == tree[1..][i];
      }
    }
  }

  /** `any` only asks whether some entry matches: a tree holding every entry
      of another matches whenever the other does. */
  lemma AnyPathMonotone(s: seq<TreeEntry>, t: seq<TreeEntry>, p: string -> bool)
    requires forall e :: e in s ==> e in t
    ensures AnyPath(s, p) ==> AnyPath(t, p)
  {
    AnyPathIff(s, p);
    AnyPathIff(t, p);
    if AnyPath(s, p) {
      var i :| 0 <= i < |s| && p(s[i].path);
      assert s[i] in t;
    }
  }

  /** How many entries satisfy `p` (`tree.iter().filter(p).count()`). */
  function CountEntries(tree: seq<TreeEntry>, p: TreeEntry -> bool): (n: nat)
    ensures n <= |tree|
  {
    if tree == [] then 0 else (if p(tree[0]) then 1 else 0) + CountEntries(tree[1..], p)
  }

  lemma {:induction false} CountEntriesAppend(a: seq<TreeEntry>, b: seq<TreeEntry>, p: TreeEntry -> bool)
    ensures CountEntries(a + b, p) == CountEntries(a, p) + CountEntries(b, p)
  {
    if a == [] {
      assert a + b == b;
    } else {
      assert (a + b)[1..] == a[1..] + b;
      CountEntriesAppend(a[1..], b, p);
    }
  }

  /** The count is zero exactly when no entry satisfies `p`. */
  lemma {:induction false} CountEntriesZero(tree: seq<TreeEntry>, p: TreeEntry -> bool)
    ensures CountEntries(tree, p) == 0 <==> forall i :: 0 <= i < |tree| ==> !p(tree[i])
  {
    if tree != [] {
      CountEntriesZero(tree[1..], p);
      assert forall i :: 1 <= i < |tree| ==> tree[i] == tree[1..][i - 1];
    }
  }
}
