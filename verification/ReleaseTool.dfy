/** The archive and cleanup loops of tools/release.py, working on the repository and the archive in place. */
module ReleaseTool {
  import opened Wrappers
  import opened ReleaseArchive
  import opened ReleaseScan

  lemma Regroup<T>(x: seq<T>, y: seq<T>, z: seq<T>)
    ensures x + (y + z) == (x + y) + z
  {
  }

  lemma {:induction false} PresentAppend(a: seq<Copy>, b: seq<Copy>, gone: set<Path>)
    ensures Present(a + b, gone) == Present(a, gone) + Present(b, gone)
  {
    if a == [] {
      assert a + b == b;
    } else {
      PresentAppend(a[1..], b, gone);
      assert (a + b)[1..] == a[1..] + b && (a + b)[0] == a[0];
      Regroup([a[0]], Present(a[1..], gone), Present(b, gone));
    }
  }

  lemma {:induction false} SkippedAppend(a: seq<Copy>, b: seq<Copy>, gone: set<Path>)
    ensures Skipped(a + b, gone) == Skipped(a, gone) + Skipped(b, gone)
  {
    if a == [] {
      assert a + b == b;
    } else {
      SkippedAppend(a[1..], b, gone);
      assert (a + b)[1..] == a[1..] + b && (a + b)[0] == a[0];
      Regroup(if a[0].source.path in gone then [a[0].source.path] else [], Skipped(a[1..], gone), Skipped(b, gone));
    }
  }

  lemma OneMore(copies: seq<Copy>, i: nat, gone: set<Path>)
    requires i < |copies|
    ensures Present(copies[..i + 1], gone) == Present(copies[..i], gone) + if copies[i].source.path in gone then [] else [copies[i]]
    ensures Skipped(copies[..i + 1], gone) == Skipped(copies[..i], gone) + if copies[i].source.path in gone then [copies[i].source.path] else []
  {
    assert copies[..i + 1] == copies[..i] + [copies[i]];
    PresentAppend(copies[..i], [copies[i]], gone);
    SkippedAppend(copies[..i], [copies[i]], gone);
  }

  // ---------------------------------------------------------------- when copies verify

  /** Each copy made in this order reads back as its source: it finds an identical one in its place, or
      the disk takes it without a fault. */
  ghost predicate Verifies(dest: map<Path, Content>, copies: seq<Copy>, faults: File -> Content) {
    forall i :: 0 <= i < |copies| ==> CopyVerifies(Written(dest, copies[..i]), copies[i], faults(copies[i].source))
  }

  predicate CopyVerifies(dest: map<Path, Content>, c: Copy, written: Content) {
    (c.target in dest && dest[c.target] == c.source.content) || written == c.source.content
  }

  lemma VerifiesAppend(dest: map<Path, Content>, a: seq<Copy>, b: seq<Copy>, faults: File -> Content)
    ensures Verifies(dest, a + b, faults) <==> Verifies(dest, a, faults) && Verifies(Written(dest, a), b, faults)
  {
    forall i | 0 <= i < |a| ensures (a + b)[..i] == a[..i] && (a + b)[i] == a[i] { }
    forall i | 0 <= i < |b| ensures Written(dest, (a + b)[..|a| + i]) == Written(Written(dest, a), b[..i]) && (a + b)[|a| + i] == b[i] {
      assert (a + b)[..|a| + i] == a + b[..i];
      WrittenAppend(dest, a, b[..i]);
    }
    if Verifies(dest, a + b, faults) {
      forall i | 0 <= i < |b| ensures CopyVerifies(Written(Written(dest, a), b[..i]), b[i], faults(b[i].source)) {
        assert CopyVerifies(Written(dest, (a + b)[..|a| + i]), (a + b)[|a| + i], faults((a + b)[|a| + i].source));
      }
      forall i | 0 <= i < |a| ensures CopyVerifies(Written(dest, a[..i]), a[i], faults(a[i].source)) {
        assert CopyVerifies(Written(dest, (a + b)[..i]), (a + b)[i], faults((a + b)[i].source));
      }
    }
    if Verifies(dest, a, faults) && Verifies(Written(dest, a), b, faults) {
      forall i | 0 <= i < |a + b| ensures CopyVerifies(Written(dest, (a + b)[..i]), (a + b)[i], faults((a + b)[i].source)) {
        if i >= |a| { assert CopyVerifies(Written(Written(dest, a), b[..i - |a|]), b[i - |a|], faults(b[i - |a|].source)); }
      }
    }
  }

  lemma VerifiesOne(dest: map<Path, Content>, c: Copy, faults: File -> Content)
    ensures Verifies(dest, [c], faults) <==> CopyVerifies(dest, c, faults(c.source))
  {
    assert [c][..0] == [] && Written(dest, []) == dest;
    if Verifies(dest, [c], faults) { assert CopyVerifies(Written(dest, [c][..0]), [c][0], faults([c][0].source)); }
  }

  /** What verifies goes on as long as the parts do. */
  lemma VerifiesFirst(dest: map<Path, Content>, copies: seq<Copy>, i: nat, gone: set<Path>, faults: File -> Content)
    requires i < |copies| && copies[i].source.path !in gone && Verifies(dest, Present(copies[..i], gone), faults)
    ensures !CopyVerifies(Written(dest, Present(copies[..i], gone)), copies[i], faults(copies[i].source)) ==>
              !Verifies(dest, Present(copies, gone), faults)
    ensures CopyVerifies(Written(dest, Present(copies[..i], gone)), copies[i], faults(copies[i].source)) ==>
              Verifies(dest, Present(copies[..i + 1], gone), faults)
  {
    var before, rest := Present(copies[..i], gone), Present(copies[i + 1..], gone);
    OneMore(copies, i, gone);
    assert copies == copies[..i + 1] + copies[i + 1..];
    PresentAppend(copies[..i + 1], copies[i + 1..], gone);
    VerifiesAppend(dest, before, [copies[i]], faults);
    VerifiesOne(Written(dest, before), copies[i], faults);
    VerifiesAppend(dest, before + [copies[i]], rest, faults);
  }

  lemma NothingMore<T>(s: seq<T>)
    ensures s + [] == s
  {
  }

  /** One item more: its copies verify where the ones before left the archive, or the whole list does not. */
  lemma ItemArchived(dest: map<Path, Content>, before: seq<Copy>, copies: seq<Copy>, rest: seq<Copy>, gone: set<Path>, faults: File -> Content)
    requires Verifies(dest, Present(before, gone), faults)
    ensures var now := Written(dest, Present(before, gone));
      && Written(now, Present(copies, gone)) == Written(dest, Present(before + copies, gone))
      && (if Verifies(now, Present(copies, gone), faults) then Verifies(dest, Present(before + copies, gone), faults)
          else !Verifies(dest, Present(before + copies + rest, gone), faults))
    ensures Skipped(before + copies, gone) == Skipped(before, gone) + Skipped(copies, gone)
  {
    PresentAppend(before, copies, gone);
    SkippedAppend(before, copies, gone);
    WrittenAppend(dest, Present(before, gone), Present(copies, gone));
    VerifiesAppend(dest, Present(before, gone), Present(copies, gone), faults);
    VerifiesWhole(dest, before + copies, rest, gone, faults);
  }

  lemma EvidenceFirst(tree: seq<File>, items: seq<Item>, i: nat, copied: seq<Copy>)
    requires i < |items|
    ensures copied + CopiesAt(tree, items[i]) + Evidence(tree, items[i + 1..]) == copied + Evidence(tree, items[i..])
  {
    assert items[i..][0] == items[i] && items[i..][1..] == items[i + 1..];
  }

  class Release {
    var tree: seq<File>
    var dest: map<Path, Content>

    constructor (tree: seq<File>, dest: map<Path, Content>)
      ensures this.tree == tree && this.dest == dest
    {
      this.tree, this.dest := tree, dest;
    }

    /** `_copy_hashed`: an identical copy is kept; a new one is read back and compared. */
    method CopyHashed(c: Copy, written: Content) returns (verified: bool)
      modifies this`dest
      ensures verified <==> CopyVerifies(old(dest), c, written)
      ensures verified ==> dest == Written(old(dest), [c])
    {
      if c.target in dest && dest[c.target] == c.source.content {
        assert dest == dest[c.target := c.source.content];
        return true;
      }
      dest := dest[c.target := written];
      verified := written == c.source.content;
    }

    /** Copy a list of files; `faults` is what the disk makes of a copy. */
    method CopyAll(copies: seq<Copy>, gone: set<Path>, faults: File -> Content) returns (verified: bool, skipped: seq<Path>)
      modifies this`dest
      ensures verified <==> Verifies(old(dest), Present(copies, gone), faults)
      ensures verified ==> dest == Written(old(dest), Present(copies, gone)) && skipped == Skipped(copies, gone)
    {
      skipped := [];
      for i := 0 to |copies|
        invariant dest == Written(old(dest), Present(copies[..i], gone)) && skipped == Skipped(copies[..i], gone)
        invariant Verifies(old(dest), Present(copies[..i], gone), faults)
      {
        OneMore(copies, i, gone);
        NothingMore(Present(copies[..i], gone));
        NothingMore(Skipped(copies[..i], gone));
        if copies[i].source.path in gone {
          skipped := skipped + [copies[i].source.path];
        } else {
          VerifiesFirst(old(dest), copies, i, gone, faults);
          verified := CopyHashed(copies[i], faults(copies[i].source));
          if !verified { return false, skipped; }
          WrittenAppend(old(dest), Present(copies[..i], gone), [copies[i]]);
        }
      }
      assert copies[..|copies|] == copies;
      verified := true;
    }

    /** The files of one item, after those copied `before` and with `rest` still to come: a vanished file
        is skipped, managed caches are left out. */
    method ArchiveItem(item: Item, gone: set<Path>, faults: File -> Content, ghost start: map<Path, Content>, ghost before: seq<Copy>, ghost rest: seq<Copy>)
      returns (verified: bool, skipped: seq<Path>)
      requires dest == Written(start, Present(before, gone)) && Verifies(start, Present(before, gone), faults)
      modifies this`dest
      ensures var all := before + CopiesAt(tree, item);
        if verified then
          && dest == Written(start, Present(all, gone)) && Verifies(start, Present(all, gone), faults)
          && Skipped(before, gone) + skipped == Skipped(all, gone)
        else !Verifies(start, Present(all + rest, gone), faults)
    {
      verified, skipped := true, [];
      if item.action.Archive? {
        var copies := CopiesOf(tree, item.path, HasFile(tree, item.path));
        ItemArchived(start, before, copies, rest, gone, faults);
        verified, skipped := CopyAll(copies, gone, faults);
      } else {
        NothingMore(before);
        NothingMore(Skipped(before, gone));
      }
    }

    method ArchiveItems(items: seq<Item>, gone: set<Path>, faults: File -> Content) returns (verified: bool, skipped: seq<Path>)
      modifies this`dest
      ensures verified <==> Verifies(old(dest), Present(Evidence(tree, items), gone), faults)
      ensures verified ==> dest == Written(old(dest), Present(Evidence(tree, items), gone)) && skipped == Skipped(Evidence(tree, items), gone)
    {
      skipped := [];
      ghost var copied: seq<Copy> := [];
      for i := 0 to |items|
        invariant copied + Evidence(tree, items[i..]) == Evidence(tree, items)
        invariant dest == Written(old(dest), Present(copied, gone)) && skipped == Skipped(copied, gone)
        invariant Verifies(old(dest), Present(copied, gone), faults)
      {
        EvidenceFirst(tree, items, i, copied);
        var ok, missed := ArchiveItem(items[i], gone, faults, old(dest), copied, Evidence(tree, items[i + 1..]));
        if !ok { return false, skipped; }
        skipped, copied := skipped + missed, copied + CopiesAt(tree, items[i]);
      }
      NothingMore(copied);
      verified := true;
    }

    /** `archive_workspace`: source snapshot first, then the evidence.  A manifest is written exactly when
        no source file vanished and every copy, in its turn, reads back as its source. */
    method ArchiveWorkspace(sources: seq<File>, items: seq<Item>, gone: set<Path>, faults: File -> Content) returns (m: Option<Manifest>)
      modifies this`dest
      ensures m.Some? <==>
                && (forall f :: f in sources ==> f.path !in gone)
                && Verifies(old(dest), Snapshots(sources) + Present(Evidence(tree, items), gone), faults)
      ensures m.Some? ==> m.value == Manifest(true, items, Skipped(Evidence(tree, items), gone))
      ensures m.Some? ==> dest == Written(old(dest), Snapshots(sources) + Present(Evidence(tree, items), gone))
    {
      if exists i :: 0 <= i < |sources| && sources[i].path in gone { return None; }
      SnapshotsPresent(sources, gone);
      VerifiesAppend(dest, Snapshots(sources), Present(Evidence(tree, items), gone), faults);
      var ok, missed := CopyAll(Snapshots(sources), gone, faults);
      if !ok { return None; }
      var skipped;
      ok, skipped := ArchiveItems(items, gone, faults);
      if !ok { return None; }
      WrittenAppend(old(dest), Snapshots(sources), Present(Evidence(tree, items), gone));
      return Some(Manifest(true, items, skipped));
    }

    /** `apply_cleanup`: a manifest that is incomplete or skipped evidence changes nothing. */
    method ApplyCleanup(supported: bool, m: Manifest, available: bool, dryRun: bool) returns (r: Result<seq<Path>, CleanupError>)
      modifies this`tree
      ensures !supported || !m.complete || m.skipped != [] || !available || dryRun ==> tree == old(tree)
      ensures supported && m.complete && m.skipped == [] && available && !dryRun ==> tree == Clean(old(tree), m.items).tree
      ensures supported && m.complete && m.skipped == [] && available && !dryRun ==>
                r == if Clean(old(tree), m.items).unsafe then Err(UnsafePath) else Ok(Clean(old(tree), m.items).removed)
      ensures r.Ok? ==> supported && m.complete && m.skipped == [] && available
    {
      if !supported || !m.complete { return Err(Unsupported); }
      if m.skipped != [] { return Err(SkippedEvidence); }
      if !available { return Err(ArchiveUnavailable); }
      var removed: seq<Path> := [];
      for i := 0 to |m.items|
        invariant dryRun ==> tree == old(tree)
        invariant !dryRun ==> Clean(tree, m.items[i..]).tree == Clean(old(tree), m.items).tree
        invariant !dryRun ==> Clean(tree, m.items[i..]).unsafe == Clean(old(tree), m.items).unsafe
        invariant !dryRun ==> removed + Clean(tree, m.items[i..]).removed == Clean(old(tree), m.items).removed
      {
        assert m.items[i..][0] == m.items[i] && m.items[i..][1..] == m.items[i + 1..];
        if !m.items[i].action.Review? {
          var target := Resolve(m.items[i].path, []);
          if !Safe(target) { return Err(UnsafePath); }
          if Holds(tree, target.value) {
            removed := removed + [target.value];
            if !dryRun { tree := Without(tree, target.value); }
          }
        }
      }
      assert m.items[|m.items|..] == [];
      NothingMore(removed);
      r := Ok(removed);
    }
  }

  lemma VerifiesWhole(dest: map<Path, Content>, a: seq<Copy>, b: seq<Copy>, gone: set<Path>, faults: File -> Content)
    ensures Verifies(dest, Present(a + b, gone), faults) ==> Verifies(dest, Present(a, gone), faults)
  {
    PresentAppend(a, b, gone);
    VerifiesAppend(dest, Present(a, gone), Present(b, gone), faults);
  }

  lemma {:induction false} SnapshotsPresent(sources: seq<File>, gone: set<Path>)
    requires forall i :: 0 <= i < |sources| ==> sources[i].path !in gone
    ensures Present(Snapshots(sources), gone) == Snapshots(sources)
  {
    if sources != [] { SnapshotsPresent(sources[1..], gone); }
  }

  /** A manifest that skipped nothing describes an archive of everything. */
  lemma {:induction false} NothingSkipped(copies: seq<Copy>, gone: set<Path>)
    ensures Skipped(copies, gone) == [] <==> Present(copies, gone) == copies
  {
    if copies != [] {
      NothingSkipped(copies[1..], gone);
      PresentIsShorter(copies[1..], gone);
      assert copies == [copies[0]] + copies[1..];
    }
  }

  lemma {:induction false} PresentIsShorter(copies: seq<Copy>, gone: set<Path>)
    ensures |Present(copies, gone)| <= |copies|
  {
    if copies != [] { PresentIsShorter(copies[1..], gone); }
  }

  /** The file was marked for deletion, can be fetched again, or is in the archive. */
  ghost predicate Accounted(items: seq<Item>, archive: map<Path, Content>, f: File) {
    || (exists k :: 0 <= k < |items| && items[k].action.Delete? && items[k].path <= f.path)
    || CanBeFetched(f.path)
    || (exists t :: t in archive && archive[t] == f.content)
  }

  /** Local evidence, by its place at the top of the repository. */
  predicate IsEvidence(p: Path) {
    p != [] && (p[0] in {".env", "data", "offline_analysis_test_files", "scratch"} || ".acceptance-" <= p[0] || ".calibration-" <= p[0])
  }

  /** A source: in .git, a source file, or below a source root and in no directory of build output. */
  predicate IsSourceFile(p: Path) {
    p != [] && (p[0] == ".git" || p[0] in SOURCE_FILES || (p[0] in SOURCE_ROOTS && forall i :: 1 <= i < |p| ==> p[i] !in NESTED_GENERATED_NAMES))
  }

  /** No item of a scan to be deleted holds evidence. */
  lemma EvidenceIsNotDeleted(entries: seq<Entry>, directories: seq<Path>, x: Item, p: Path)
    requires x in Scan(entries, directories) && x.action.Delete? && x.path <= p
    ensures !IsEvidence(p) || IsSource(p[0])
  {
    ScanIs(entries, directories, x);
    if e :| e in entries && !IsSource(e.name) && x == Item([e.name], Classify(e)) {
      ClassifyIs(e);
      assert p[0] == e.name;
    } else {
      var d :| d in directories && IsGenerated(d) && x == Item(d, Delete);
      assert p[0] == d[0];
    }
  }

  /** No item of a scan holds a source. */
  lemma SourcesAreNotListed(entries: seq<Entry>, directories: seq<Path>, x: Item, p: Path)
    requires x in Scan(entries, directories) && x.path <= p
    ensures !IsSourceFile(p)
  {
    ScanIs(entries, directories, x);
    if e :| e in entries && !IsSource(e.name) && x == Item([e.name], Classify(e)) {
      assert p[0] == e.name;
    } else {
      var d :| d in directories && IsGenerated(d) && x == Item(d, Delete);
      assert p[|d| - 1] == d[|d| - 1] && p[0] == d[0];
      SourceNamesDiffer(p[0]);
    }
  }

  lemma SourceNamesDiffer(name: string)
    requires name in SOURCE_ROOTS
    ensures name !in SOURCE_FILES && name != ".git"
  {
  }

  /** Of a scanned workspace, cleanup removes no source. */
  lemma SourcesStay(tree: seq<File>, entries: seq<Entry>, directories: seq<Path>, f: File)
    requires Listed(entries, directories) && f in tree && IsSourceFile(f.path)
    ensures f in Clean(tree, Scan(entries, directories)).tree
  {
    var items := Scan(entries, directories);
    CleanRemovesExactly(tree, items);
    if f !in Clean(tree, items).tree {
      var k :| 0 <= k < |items| && !items[k].action.Review? && Resolve(items[k].path, []).Some?
        && Safe(Resolve(items[k].path, [])) && Resolve(items[k].path, []).value <= f.path;
      ScanIsSafe(entries, directories, items[k]);
      NormalResolves(items[k].path, []);
      assert [] + items[k].path == items[k].path;
      SourcesAreNotListed(entries, directories, items[k], f.path);
    }
  }

  /** Every archive entry of a scan is evidence by its place, so local evidence that is gone is in the
      archive, or can be fetched again. */
  lemma EvidenceIsKept(entries: seq<Entry>, directories: seq<Path>, archive: map<Path, Content>, f: File)
    requires Accounted(Scan(entries, directories), archive, f) && IsEvidence(f.path) && !IsSource(f.path[0])
    ensures CanBeFetched(f.path) || exists t :: t in archive && archive[t] == f.content
  {
    var items := Scan(entries, directories);
    if k :| 0 <= k < |items| && items[k].action.Delete? && items[k].path <= f.path {
      EvidenceIsNotDeleted(entries, directories, items[k], f.path);
    }
  }

  /** Scan, archive and cleanup in one go.  The workspace is cleaned exactly when every file was there and
      every copy verified.  No source is gone then; local evidence that is gone is in the archive, or can
      be fetched again; and whatever else is gone was marked for deletion. */
  method ArchiveAndClean(r: Release, sources: seq<File>, entries: seq<Entry>, directories: seq<Path>, gone: set<Path>,
                         faults: File -> Content)
    returns (cleaned: bool)
    requires IsTree(r.tree) && Listed(entries, directories)
    modifies r
    ensures r.tree == if cleaned then Clean(old(r.tree), Scan(entries, directories)).tree else old(r.tree)
    ensures cleaned <==> AllThereAndVerified(old(r.tree), old(r.dest), sources, Scan(entries, directories), gone, faults)
    ensures cleaned ==> LosesNothing(old(r.tree), r.tree, r.dest, entries, directories)
  {
    cleaned := false;
    var items := ScanWorkspace(entries, directories);
    ReadyToClean(r.tree, r.dest, sources, entries, directories, items, gone, faults);
    var m := r.ArchiveWorkspace(sources, items, gone, faults);
    if m.Some? {
      var result := r.ApplyCleanup(true, m.value, true, false);
      cleaned := result.Ok?;
    }
  }

  /** Every file was there when its turn came, and every copy verified. */
  ghost predicate AllThereAndVerified(tree: seq<File>, dest: map<Path, Content>, sources: seq<File>, items: seq<Item>, gone: set<Path>, faults: File -> Content) {
    && (forall f :: f in sources ==> f.path !in gone)
    && (forall c :: c in Evidence(tree, items) ==> c.source.path !in gone)
    && Verifies(dest, Snapshots(sources) + Evidence(tree, items), faults)
  }

  /** What went from the workspace is accounted for, is no source and, if it is evidence, is kept. */
  ghost predicate LosesNothing(before: seq<File>, after: seq<File>, archive: map<Path, Content>, entries: seq<Entry>, directories: seq<Path>) {
    forall f :: f in before && f !in after ==> GoneFor(f, archive, entries, directories)
  }

  ghost predicate GoneFor(f: File, archive: map<Path, Content>, entries: seq<Entry>, directories: seq<Path>) {
    && Accounted(Scan(entries, directories), archive, f) && !IsSourceFile(f.path)
    && (IsEvidence(f.path) && !IsSource(f.path[0]) ==> CanBeFetched(f.path) || exists t :: t in archive && archive[t] == f.content)
  }

  lemma {:induction false} ThereIff(copies: seq<Copy>, gone: set<Path>)
    ensures Skipped(copies, gone) == [] <==> forall c :: c in copies ==> c.source.path !in gone
  {
    if copies != [] {
      ThereIff(copies[1..], gone);
      assert forall c :: c in copies <==> c == copies[0] || c in copies[1..];
    }
  }

  /** What a manifest of a scanned workspace says decides whether cleanup goes through. */
  lemma ReadyToClean(tree: seq<File>, dest: map<Path, Content>, sources: seq<File>, entries: seq<Entry>, directories: seq<Path>,
                     items: seq<Item>, gone: set<Path>, faults: File -> Content)
    requires IsTree(tree) && Listed(entries, directories) && items == Scan(entries, directories)
    ensures AllThereAndVerified(tree, dest, sources, items, gone, faults) <==>
              && (forall f :: f in sources ==> f.path !in gone)
              && Verifies(dest, Snapshots(sources) + Present(Evidence(tree, items), gone), faults)
              && Skipped(Evidence(tree, items), gone) == []
    ensures !Clean(tree, items).unsafe
    ensures Skipped(Evidence(tree, items), gone) == [] ==>
              LosesNothing(tree, Clean(tree, items).tree, Written(dest, Snapshots(sources) + Present(Evidence(tree, items), gone)), entries, directories)
  {
    ThereIff(Evidence(tree, items), gone);
    NothingSkipped(Evidence(tree, items), gone);
    ScanCleansSafely(tree, dest, sources, entries, directories);
    CleaningLosesNothing(tree, dest, sources, entries, directories);
  }

  lemma CleaningLosesNothing(tree: seq<File>, dest: map<Path, Content>, sources: seq<File>, entries: seq<Entry>, directories: seq<Path>)
    requires IsTree(tree) && Listed(entries, directories)
    ensures LosesNothing(tree, Clean(tree, Scan(entries, directories)).tree,
                         Written(dest, Snapshots(sources) + Evidence(tree, Scan(entries, directories))), entries, directories)
  {
    var items := Scan(entries, directories);
    var archive := Written(dest, Snapshots(sources) + Evidence(tree, items));
    ScanCleansSafely(tree, dest, sources, entries, directories);
    forall f | f in tree && f !in Clean(tree, items).tree ensures GoneFor(f, archive, entries, directories) {
      assert Accounted(items, archive, f);
      if IsSourceFile(f.path) { SourcesStay(tree, entries, directories, f); }
      if IsEvidence(f.path) && !IsSource(f.path[0]) { EvidenceIsKept(entries, directories, archive, f); }
    }
  }


  /** The archive of a scanned workspace holds what cleanup then removes. */
  lemma ScanCleansSafely(tree: seq<File>, dest: map<Path, Content>, sources: seq<File>, entries: seq<Entry>, directories: seq<Path>)
    requires IsTree(tree) && Listed(entries, directories)
    ensures var items := Scan(entries, directories);
      var archive := Written(dest, Snapshots(sources) + Evidence(tree, items));
      && !Clean(tree, items).unsafe
      && forall f :: f in tree && f !in Clean(tree, items).tree ==> Accounted(items, archive, f)
  {
    var items := Scan(entries, directories);
    forall k | 0 <= k < |items| ensures Normal(items[k].path) && items[k].path != [".git"] {
      ScanIsSafe(entries, directories, items[k]);
    }
    NormalItemsAreSafe(tree, items);
    ScansDoNotClash(tree, entries, directories);
    forall f | f in tree && f !in Clean(tree, items).tree
      ensures Accounted(items, Written(dest, Snapshots(sources) + Evidence(tree, items)), f)
    {
      ArchiveThenCleanLosesNothing(tree, dest, sources, items, f);
    }
  }

  /** A manifest made from a scan never trips the guard on unsafe paths. */
  lemma {:induction false} NormalItemsAreSafe(tree: seq<File>, items: seq<Item>)
    requires forall k :: 0 <= k < |items| ==> Normal(items[k].path) && items[k].path != [".git"]
    ensures !Clean(tree, items).unsafe
    decreases |items|
  {
    if items != [] {
      NormalResolves(items[0].path, []);
      assert [] + items[0].path == items[0].path;
      NormalItemsAreSafe(tree, items[1..]);
      NormalItemsAreSafe(Without(tree, items[0].path), items[1..]);
    }
  }
}
