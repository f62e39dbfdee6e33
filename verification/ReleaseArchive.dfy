/**
 Archive, then clean up (tools/release.py, `archive_workspace`, `_copy_hashed`, `apply_cleanup`).  Paths
 are lists of names, relative to the repository or to the archive; contents stand for their hashes.
 */
module ReleaseArchive {
  import opened Wrappers

  type Path = seq<string>
  type Content = int

  /** A regular file; the workspace is listed in walk order. */
  datatype File = File(path: Path, content: Content)

  datatype Action = Archive | Delete | Review

  datatype Item = Item(path: Path, action: Action)

  datatype Copy = Copy(source: File, target: Path)

  datatype Manifest = Manifest(complete: bool, items: seq<Item>, skipped: seq<Path>)

  // ---------------------------------------------------------------- what is copied where

  predicate Distinct(tree: seq<File>) { forall i, j :: 0 <= i < j < |tree| ==> tree[i].path != tree[j].path }

  predicate HasFile(tree: seq<File>, p: Path) { exists i :: 0 <= i < |tree| && tree[i].path == p }

  const LOCAL := "local-evidence"
  const SNAPSHOT := "source-snapshot"

  /** Managed Sigma worktrees can be fetched again. */
  predicate IsCache(p: Path) {
    && |p| >= 3 && p[0] == "data" && p[1] == "sigma" && ("checkout-" <= p[2] || "staging-" <= p[2])
  }

  /** The same, said once more for what must not be lost: a checkout or staging directory of Sigma. */
  ghost predicate CanBeFetched(p: Path) {
    exists tail :: p == ["data", "sigma"] + tail && tail != [] && ("checkout-" <= tail[0] || "staging-" <= tail[0])
  }

  lemma CacheIff(p: Path)
    ensures IsCache(p) <==> CanBeFetched(p)
  {
    if IsCache(p) { assert p == ["data", "sigma"] + p[2..]; }
  }

  /** A single file is archived under its bare name, a directory under its path. */
  function Target(item: Path, p: Path): Path {
    if p == item && p != [] then [LOCAL, p[|p| - 1]] else [LOCAL] + p
  }

  function CopiesOf(tree: seq<File>, item: Path, single: bool): seq<Copy> {
    if tree == [] then []
    else
      var f, rest := tree[0], CopiesOf(tree[1..], item, single);
      if (if single then f.path == item else item <= f.path && !IsCache(f.path)) then [Copy(f, Target(item, f.path))] + rest
      else rest
  }

  function Evidence(tree: seq<File>, items: seq<Item>): seq<Copy> {
    if items == [] then [] else CopiesAt(tree, items[0]) + Evidence(tree, items[1..])
  }

  /** What an item contributes. */
  function CopiesAt(tree: seq<File>, item: Item): seq<Copy> {
    if item.action.Archive? then CopiesOf(tree, item.path, HasFile(tree, item.path)) else []
  }

  function Snapshots(sources: seq<File>): seq<Copy> {
    if sources == [] then [] else [Copy(sources[0], [SNAPSHOT] + sources[0].path)] + Snapshots(sources[1..])
  }

  /** The archive after these copies, in order. */
  function Written(dest: map<Path, Content>, copies: seq<Copy>): map<Path, Content> {
    if copies == [] then dest else Written(dest, copies[..|copies| - 1])[copies[|copies| - 1].target := copies[|copies| - 1].source.content]
  }

  /** Files that vanish while the archive is made are skipped. */
  function Present(copies: seq<Copy>, gone: set<Path>): seq<Copy> {
    if copies == [] then []
    else if copies[0].source.path in gone then Present(copies[1..], gone)
    else [copies[0]] + Present(copies[1..], gone)
  }

  function Skipped(copies: seq<Copy>, gone: set<Path>): seq<Path> {
    if copies == [] then []
    else (if copies[0].source.path in gone then [copies[0].source.path] else []) + Skipped(copies[1..], gone)
  }

  // ---------------------------------------------------------------- cleanup

  /** `(root / relative).resolve()`; None once it leaves the repository. */
  function Resolve(relative: Path, at: Path): Option<Path> {
    if relative == [] then Some(at)
    else if relative[0] == "." || relative[0] == "" then Resolve(relative[1..], at)
    else if relative[0] == ".." then
      if at == [] then None else Resolve(relative[1..], at[..|at| - 1])
    else Resolve(relative[1..], at + [relative[0]])
  }

  predicate Safe(p: Option<Path>) { p.Some? && p.value != [] && p.value != [".git"] }

  function Without(tree: seq<File>, p: Path): seq<File> {
    if tree == [] then []
    else if p <= tree[0].path then Without(tree[1..], p)
    else [tree[0]] + Without(tree[1..], p)
  }

  predicate Holds(tree: seq<File>, p: Path) { exists i :: 0 <= i < |tree| && p <= tree[i].path }

  datatype CleanupError = Unsupported | SkippedEvidence | ArchiveUnavailable | UnsafePath

  /** The workspace after cleaning these items, what was removed, and whether an unsafe path ended it. */
  datatype Cleaned = Cleaned(tree: seq<File>, removed: seq<Path>, unsafe: bool)

  function Clean(tree: seq<File>, items: seq<Item>): Cleaned
    decreases |items|
  {
    if items == [] then Cleaned(tree, [], false)
    else if items[0].action.Review? then Clean(tree, items[1..])
    else
      var target := Resolve(items[0].path, []);
      if !Safe(target) then Cleaned(tree, [], true)
      else if !Holds(tree, target.value) then Clean(tree, items[1..])
      else
        var rest := Clean(Without(tree, target.value), items[1..]);
        rest.(removed := [target.value] + rest.removed)
  }

  // ---------------------------------------------------------------- what the archive keeps

  lemma {:induction false} WrittenAppend(dest: map<Path, Content>, a: seq<Copy>, b: seq<Copy>)
    ensures Written(dest, a + b) == Written(Written(dest, a), b)
    decreases |b|
  {
    if b == [] {
      assert a + b == a;
    } else {
      WrittenAppend(dest, a, b[..|b| - 1]);
      assert (a + b)[..|a + b| - 1] == a + b[..|b| - 1];
    }
  }

  ghost predicate NoClash(copies: seq<Copy>) {
    forall i, j :: 0 <= i < j < |copies| && copies[i].target == copies[j].target ==> copies[i].source.content == copies[j].source.content
  }

  ghost predicate AllSurvive(dest: map<Path, Content>, copies: seq<Copy>) {
    forall i :: 0 <= i < |copies| ==>
      copies[i].target in Written(dest, copies) && Written(dest, copies)[copies[i].target] == copies[i].source.content
  }

  /** The archive holds the last copy made to each place. */
  lemma {:induction false} LastCopyWins(dest: map<Path, Content>, copies: seq<Copy>, i: nat)
    requires i < |copies| && forall j :: i < j < |copies| ==> copies[j].target != copies[i].target
    ensures copies[i].target in Written(dest, copies) && Written(dest, copies)[copies[i].target] == copies[i].source.content
  {
    if i < |copies| - 1 { LastCopyWins(dest, copies[..|copies| - 1], i); }
  }

  lemma {:induction false} LastWithTarget(copies: seq<Copy>, i: nat) returns (k: nat)
    requires i < |copies|
    ensures i <= k < |copies| && copies[k].target == copies[i].target
    ensures forall j :: k < j < |copies| ==> copies[j].target != copies[i].target
  {
    if copies[|copies| - 1].target == copies[i].target {
      k := |copies| - 1;
    } else {
      k := LastWithTarget(copies[..|copies| - 1], i);
    }
  }

  /** Every copy is still in the archive when it is complete, if and only if no two copies of different
      contents went to the same place. */
  lemma CopiesSurviveIff(dest: map<Path, Content>, copies: seq<Copy>)
    ensures AllSurvive(dest, copies) <==> NoClash(copies)
  {
    if NoClash(copies) {
      forall i | 0 <= i < |copies|
        ensures copies[i].target in Written(dest, copies) && Written(dest, copies)[copies[i].target] == copies[i].source.content
      {
        var k := LastWithTarget(copies, i);
        LastCopyWins(dest, copies, k);
      }
    }
  }

  ghost predicate TopLevelFiles(tree: seq<File>, items: seq<Item>) {
    forall k :: 0 <= k < |items| && items[k].action.Archive? && HasFile(tree, items[k].path) ==> |items[k].path| == 1
  }

  lemma {:induction false} CopiesAre(tree: seq<File>, item: Path, single: bool)
    ensures forall c :: c in CopiesOf(tree, item, single) ==> c.source in tree && c.target == Target(item, c.source.path)
    ensures forall c :: c in CopiesOf(tree, item, single) ==> if single then c.source.path == item else item <= c.source.path
    ensures forall f :: f in tree && (if single then f.path == item else item <= f.path && !IsCache(f.path)) ==>
              Copy(f, Target(item, f.path)) in CopiesOf(tree, item, single)
  {
    if tree != [] { CopiesAre(tree[1..], item, single); }
  }

  /** Below the top level of the repository every file keeps its path. */
  lemma {:induction false} TargetsKeepPaths(tree: seq<File>, items: seq<Item>)
    requires TopLevelFiles(tree, items)
    ensures forall c :: c in Evidence(tree, items) ==> c.source in tree && c.target == [LOCAL] + c.source.path
  {
    if items != [] {
      TargetsKeepPaths(tree, items[1..]);
      var item := items[0].path;
      if items[0].action.Archive? {
        CopiesAre(tree, item, HasFile(tree, item));
        forall c | c in CopiesOf(tree, item, HasFile(tree, item)) ensures c.target == [LOCAL] + c.source.path {
          if c.source.path == item {
            assert c.source in tree;
            assert HasFile(tree, item);
            assert item == [item[0]];
          }
        }
      }
    }
  }

  /** Single files listed at the top of the repository, and directories anywhere, cannot clash. */
  lemma TopLevelItemsDoNotClash(tree: seq<File>, items: seq<Item>)
    requires Distinct(tree) && TopLevelFiles(tree, items)
    ensures NoClash(Evidence(tree, items))
  {
    TargetsKeepPaths(tree, items);
    var copies := Evidence(tree, items);
    forall i, j | 0 <= i < j < |copies| && copies[i].target == copies[j].target
      ensures copies[i].source.content == copies[j].source.content
    {
      assert copies[i] in copies && copies[j] in copies;
      assert ([LOCAL] + copies[i].source.path)[1..] == ([LOCAL] + copies[j].source.path)[1..];
      var a :| 0 <= a < |tree| && tree[a] == copies[i].source;
      var b :| 0 <= b < |tree| && tree[b] == copies[j].source;
    }
  }

  lemma {:induction false} EveryItemIsCopied(tree: seq<File>, items: seq<Item>, k: nat, f: File)
    requires k < |items| && items[k].action.Archive? && f in tree && items[k].path <= f.path
    requires Distinct(tree) && (HasFile(tree, items[k].path) ==> f.path == items[k].path)
    ensures IsCache(f.path) || Copy(f, Target(items[k].path, f.path)) in Evidence(tree, items)
  {
    if k > 0 {
      EveryItemIsCopied(tree, items[1..], k - 1, f);
    } else {
      CopiesAre(tree, items[0].path, HasFile(tree, items[0].path));
    }
  }

  /** Nothing is lost: in an unchanged workspace, each file under an archived item has its content in
      the finished archive, at a place no other copy overwrote, or it is a cache that can be fetched
      again. */
  lemma NothingIsLost(tree: seq<File>, dest: map<Path, Content>, sources: seq<File>, items: seq<Item>, k: nat, f: File)
    requires Distinct(tree) && k < |items| && items[k].action.Archive? && f in tree && items[k].path <= f.path
    requires HasFile(tree, items[k].path) ==> f.path == items[k].path
    requires NoClash(Evidence(tree, items))
    ensures var archive := Written(dest, Snapshots(sources) + Evidence(tree, items));
      CanBeFetched(f.path) ||
      (Target(items[k].path, f.path) in archive && archive[Target(items[k].path, f.path)] == f.content)
  {
    var copies := Evidence(tree, items);
    CacheIff(f.path);
    EveryItemIsCopied(tree, items, k, f);
    WrittenAppend(dest, Snapshots(sources), copies);
    CopiesSurviveIff(Written(dest, Snapshots(sources)), copies);
    if !IsCache(f.path) {
      var i :| 0 <= i < |copies| && copies[i] == Copy(f, Target(items[k].path, f.path));
    }
  }

  // ---------------------------------------------------------------- what cleanup removes

  lemma {:induction false} WithoutIs(tree: seq<File>, p: Path)
    ensures forall f :: f in Without(tree, p) <==> f in tree && !(p <= f.path)
  {
    if tree != [] { WithoutIs(tree[1..], p); }
  }

  ghost predicate Condemned(items: seq<Item>, f: File) {
    exists k :: 0 <= k < |items| && !items[k].action.Review? && Resolve(items[k].path, []).Some?
                && Safe(Resolve(items[k].path, [])) && Resolve(items[k].path, []).value <= f.path
  }

  /** Cleanup removes exactly the files under the items to archive or delete (fewer, when an unsafe path
      ends it), and no target it removed is the repository itself or its .git. */
  lemma {:induction false} CleanRemovesExactly(tree: seq<File>, items: seq<Item>)
    ensures var c := Clean(tree, items);
      && (forall f :: f in c.tree ==> f in tree)
      && (forall f :: f in tree && f !in c.tree ==> Condemned(items, f))
      && (!c.unsafe ==> forall f :: f in tree && Condemned(items, f) ==> f !in c.tree)
      && (forall p :: p in c.removed ==> p != [] && p != [".git"])
    decreases |items|
  {
    if items != [] {
      var target := Resolve(items[0].path, []);
      var next := if !items[0].action.Review? && Safe(target) && Holds(tree, target.value) then Without(tree, target.value) else tree;
      if target.Some? { WithoutIs(tree, target.value); }
      CleanRemovesExactly(next, items[1..]);
      forall f ensures Condemned(items, f) <==>
        (!items[0].action.Review? && Safe(target) && target.value <= f.path) || Condemned(items[1..], f)
      {
        CondemnedStep(items, f);
      }
    }
  }

  lemma CondemnedStep(items: seq<Item>, f: File)
    requires items != []
    ensures var target := Resolve(items[0].path, []);
      Condemned(items, f) <==> (!items[0].action.Review? && Safe(target) && target.value <= f.path) || Condemned(items[1..], f)
  {
    if Condemned(items[1..], f) {
      var k :| 0 <= k < |items[1..]| && !items[1..][k].action.Review? && Resolve(items[1..][k].path, []).Some?
        && Safe(Resolve(items[1..][k].path, [])) && Resolve(items[1..][k].path, []).value <= f.path;
      assert items[k + 1] == items[1..][k];
    }
    if Condemned(items, f) {
      var k :| 0 <= k < |items| && !items[k].action.Review? && Resolve(items[k].path, []).Some?
        && Safe(Resolve(items[k].path, [])) && Resolve(items[k].path, []).value <= f.path;
      if k > 0 { assert items[1..][k - 1] == items[k]; }
    }
  }

  // ---------------------------------------------------------------- archive, then clean up

  /** A file system: paths are distinct, and no file lies below another. */
  ghost predicate IsTree(tree: seq<File>) {
    Distinct(tree) && forall f, g :: f in tree && g in tree && f.path <= g.path ==> f.path == g.path
  }

  /** An item path as a scan writes it. */
  predicate Normal(p: Path) { p != [] && forall i :: 0 <= i < |p| ==> p[i] != "." && p[i] != "" && p[i] != ".." }

  lemma {:induction false} NormalResolves(p: Path, at: Path)
    requires forall i :: 0 <= i < |p| ==> p[i] != "." && p[i] != "" && p[i] != ".."
    ensures Resolve(p, at) == Some(at + p)
    decreases |p|
  {
    if p == [] {
      assert at + p == at;
    } else {
      NormalResolves(p[1..], at + [p[0]]);
      assert at + [p[0]] + p[1..] == at + p;
    }
  }

  /** In an unchanged workspace, whatever cleanup removed after a finished archive was marked for
      deletion, or can be fetched again, or is in the archive with its content. */
  lemma ArchiveThenCleanLosesNothing(tree: seq<File>, dest: map<Path, Content>, sources: seq<File>, items: seq<Item>, f: File)
    requires IsTree(tree) && (forall k :: 0 <= k < |items| ==> Normal(items[k].path)) && NoClash(Evidence(tree, items))
    requires f in tree && f !in Clean(tree, items).tree
    ensures var archive := Written(dest, Snapshots(sources) + Evidence(tree, items));
      || (exists k :: 0 <= k < |items| && items[k].action.Delete? && items[k].path <= f.path)
      || CanBeFetched(f.path)
      || (exists k :: 0 <= k < |items| && items[k].action.Archive? && items[k].path <= f.path
                      && Target(items[k].path, f.path) in archive && archive[Target(items[k].path, f.path)] == f.content)
  {
    CleanRemovesExactly(tree, items);
    var k :| 0 <= k < |items| && !items[k].action.Review? && Resolve(items[k].path, []).Some?
      && Safe(Resolve(items[k].path, [])) && Resolve(items[k].path, []).value <= f.path;
    NormalResolves(items[k].path, []);
    assert [] + items[k].path == items[k].path;
    if items[k].action.Archive? {
      if HasFile(tree, items[k].path) {
        var i :| 0 <= i < |tree| && tree[i].path == items[k].path;
        assert tree[i] in tree;
      }
      NothingIsLost(tree, dest, sources, items, k, f);
    }
  }

  // ---------------------------------------------------------------- where it does lose something

  const AX: Path := ["a", "x"]
  const BX: Path := ["b", "x"]

  lemma TwoCopies(f: File, g: File)
    requires f.path == AX && g.path == BX
    ensures Evidence([f, g], [Item(AX, Archive), Item(BX, Archive)]) == [Copy(f, [LOCAL, "x"]), Copy(g, [LOCAL, "x"])]
  {
    var tree, items := [f, g], [Item(AX, Archive), Item(BX, Archive)];
    assert AX[0] != BX[0];
    assert tree[0].path == AX && tree[1].path == BX;
    assert tree[1..] == [g] && [g][1..] == [] && items[1..] == [items[1]] && [items[1]][1..] == [];
    assert CopiesOf([g], AX, true) == [] && CopiesOf(tree, AX, true) == [Copy(f, [LOCAL, "x"])];
    assert CopiesOf([g], BX, true) == [Copy(g, [LOCAL, "x"])] && CopiesOf(tree, BX, true) == [Copy(g, [LOCAL, "x"])];
    assert Evidence(tree, [items[1]]) == [Copy(g, [LOCAL, "x"])];
  }

  lemma BothRemoved(f: File, g: File)
    requires f.path == AX && g.path == BX
    ensures Clean([f, g], [Item(AX, Archive), Item(BX, Archive)]) == Cleaned([], [AX, BX], false)
  {
    var tree, items := [f, g], [Item(AX, Archive), Item(BX, Archive)];
    NormalResolves(AX, []);
    NormalResolves(BX, []);
    assert [] + AX == AX && [] + BX == BX && items[1..] == [items[1]];
    assert AX <= tree[0].path && BX <= [g][0].path;
    assert !(AX <= g.path) by { assert AX[0] != BX[0]; }
    assert Without([g], AX) == [g] && Without(tree, AX) == [g] && Without([g], BX) == [];
    assert Clean([g], [items[1]]) == Cleaned([], [BX], false);
  }

  /** Two single files of one name, listed from different directories, go to the same place: the first
      one's content is nowhere in the archive, and cleanup removes both. */
  lemma NestedFilesCollide(f: File, g: File)
    requires f.path == AX && g.path == BX && f.content != g.content
    ensures var tree, items := [f, g], [Item(AX, Archive), Item(BX, Archive)];
      var archive := Written(map[], Evidence(tree, items));
      && IsTree(tree) && Normal(AX) && Normal(BX)
      && (forall t :: t in archive ==> archive[t] != f.content)
      && Clean(tree, items).tree == [] && !Clean(tree, items).unsafe
  {
    var copies := [Copy(f, [LOCAL, "x"]), Copy(g, [LOCAL, "x"])];
    TwoCopies(f, g);
    BothRemoved(f, g);
    assert copies[..1] == [copies[0]] && copies[..1][..0] == [];
    assert Written(map[], copies[..1]) == map[copies[0].target := f.content];
    assert AX[0] != BX[0];
  }
}
