/** The classification of a workspace (tools/release.py, `scan_workspace`). */
module ReleaseScan {
  import opened PythonText
  import opened ReleaseArchive

  const SOURCE_ROOTS := {
    ".github", "calibration", "config", "core", "deploy", "docs", "rust", "requirements", "scripts", "tests", "tools",
    "traffic_testing", "ui"
  }

  const SOURCE_FILES := {
    ".env.example", ".gitattributes", ".gitignore", "AGENTS.md", "CODE_OF_CONDUCT.md", "CONTRIBUTING.md", "CHANGELOG.md",
    "LICENSE", "Makefile", "README.md", "SECURITY.md", "SUPPORT.md", "THIRD_PARTY_NOTICES.md", "USAGE.md", ".dockerignore",
    "Dockerfile", "compose.yaml", "install.ps1", "watchtower.ps1", "watchtower.sh", "pyproject.toml", "requirements.txt"
  }

  const ARCHIVE_NAMES := {".env", "data", "offline_analysis_test_files", "scratch"}
  const ARCHIVE_PREFIXES := [".acceptance-", ".calibration-"]

  const DELETE_NAMES := {
    ".agents", ".codex", ".install-runtime", ".plugin-runtime", ".pytest_cache", ".ruff_cache", ".superpowers", ".venv",
    ".vite", "WT", "data_test", "watchtower_engine.egg-info"
  }

  const DELETE_PREFIXES := [
    ".aggregate-", ".ai-", ".authoring-", ".dhcp-", ".focused-", ".integrated-", ".modbus-", ".perf-", ".phase",
    ".precalibration-", ".production-", ".release-phase", ".rust-", ".slice", ".stateful-", ".stream", ".task",
    ".terminal-", ".tls-", ".tmp-"
  ]

  const NESTED_GENERATED_NAMES := {
    ".mypy_cache", ".next", ".nitro", ".npm-cache", ".output", ".pytest_cache", ".ruff_cache", ".tanstack", ".vinxi",
    ".vite", ".wrangler", "__pycache__", "dist", "node_modules", "target"
  }

  /** Something at the top of the repository. */
  datatype Entry = Entry(name: string, isDirectory: bool)

  predicate StartsWithAny(name: string, prefixes: seq<string>) {
    exists i :: 0 <= i < |prefixes| && prefixes[i] <= name
  }

  predicate IsSource(name: string) { name == ".git" || name in SOURCE_ROOTS || name in SOURCE_FILES }

  function Classify(e: Entry): Action {
    if e.name in ARCHIVE_NAMES || StartsWithAny(e.name, ARCHIVE_PREFIXES) then Archive
    else if e.name in DELETE_NAMES || StartsWithAny(e.name, DELETE_PREFIXES) then Delete
    else if e.name != "" && e.name[0] == '.' && e.isDirectory then Delete
    else Review
  }

  /** Archived is what carries one of four names or one of two prefixes, and nothing of it is deleted;
      hidden directories are deleted even when nobody knows them; everything else that carries no known
      name or prefix is left to the operator. */
  lemma ClassifyIs(e: Entry)
    ensures Classify(e) == Archive <==>
              e.name in {".env", "data", "offline_analysis_test_files", "scratch"} || ".acceptance-" <= e.name || ".calibration-" <= e.name
    ensures Classify(e) == Review <==>
              && Classify(e) != Archive && e.name !in DELETE_NAMES && (forall p :: p in DELETE_PREFIXES ==> !(p <= e.name))
              && !(e.isDirectory && e.name != "" && e.name[0] == '.')
  {
    StartsIff(e.name, ARCHIVE_PREFIXES);
    StartsIff(e.name, DELETE_PREFIXES);
    assert ARCHIVE_PREFIXES[0] == ".acceptance-" && ARCHIVE_PREFIXES[1] == ".calibration-";
  }

  lemma StartsIff(name: string, prefixes: seq<string>)
    ensures StartsWithAny(name, prefixes) <==> exists p :: p in prefixes && p <= name
  {
    if StartsWithAny(name, prefixes) {
      var i :| 0 <= i < |prefixes| && prefixes[i] <= name;
      assert prefixes[i] in prefixes;
    }
  }

  /** A directory of build output below a source root; the walk does not enter another one to find it. */
  predicate IsGenerated(d: Path) {
    && |d| >= 2 && d[0] in SOURCE_ROOTS && d[|d| - 1] in NESTED_GENERATED_NAMES
    && forall i :: 1 <= i < |d| - 1 ==> d[i] !in NESTED_GENERATED_NAMES
  }

  function TopItems(entries: seq<Entry>): seq<Item> {
    if entries == [] then []
    else TopItems(entries[..|entries| - 1]) +
         var e := entries[|entries| - 1];
         if IsSource(e.name) then [] else [Item([e.name], Classify(e))]
  }

  function NestedItems(directories: seq<Path>): seq<Item> {
    if directories == [] then []
    else NestedItems(directories[..|directories| - 1]) +
         var d := directories[|directories| - 1];
         if IsGenerated(d) then [Item(d, Delete)] else []
  }

  /** The POSIX text of a path, by which items are sorted. */
  function PathText(p: Path): string {
    if p == [] then "" else if |p| == 1 then p[0] else p[0] + "/" + PathText(p[1..])
  }

  function InsertItem(items: seq<Item>, x: Item): seq<Item> {
    if items == [] || !TextLess(PathText(x.path), PathText(items[|items| - 1].path)) then items + [x]
    else InsertItem(items[..|items| - 1], x) + [items[|items| - 1]]
  }

  function SortItems(items: seq<Item>): seq<Item> {
    if items == [] then [] else InsertItem(SortItems(items[..|items| - 1]), items[|items| - 1])
  }

  function Scan(entries: seq<Entry>, directories: seq<Path>): seq<Item> {
    SortItems(TopItems(entries) + NestedItems(directories))
  }

  lemma {:induction false} InsertKeeps(items: seq<Item>, x: Item)
    ensures forall y :: y in InsertItem(items, x) <==> y == x || y in items
  {
    if items != [] {
      assert items == items[..|items| - 1] + [items[|items| - 1]];
      if TextLess(PathText(x.path), PathText(items[|items| - 1].path)) { InsertKeeps(items[..|items| - 1], x); }
    }
  }

  lemma {:induction false} SortKeeps(items: seq<Item>)
    ensures forall y :: y in SortItems(items) <==> y in items
  {
    if items != [] {
      assert items == items[..|items| - 1] + [items[|items| - 1]];
      SortKeeps(items[..|items| - 1]);
      InsertKeeps(SortItems(items[..|items| - 1]), items[|items| - 1]);
    }
  }

  /** In order of path text. */
  ghost predicate InPathOrder(items: seq<Item>) {
    forall i, j :: 0 <= i < j < |items| ==> !TextLess(PathText(items[j].path), PathText(items[i].path))
  }

  lemma {:induction false} InsertAdds(items: seq<Item>, x: Item)
    ensures multiset(InsertItem(items, x)) == multiset(items) + multiset{x}
  {
    if items != [] {
      assert items == items[..|items| - 1] + [items[|items| - 1]];
      if TextLess(PathText(x.path), PathText(items[|items| - 1].path)) { InsertAdds(items[..|items| - 1], x); }
    }
  }

  lemma {:induction false} InsertOrders(items: seq<Item>, x: Item)
    requires InPathOrder(items)
    ensures InPathOrder(InsertItem(items, x))
  {
    if items != [] {
      var init, last := items[..|items| - 1], items[|items| - 1];
      if TextLess(PathText(x.path), PathText(last.path)) {
        InsertOrders(init, x);
        InsertKeeps(init, x);
        TextOrder(PathText(x.path), PathText(last.path));
        LastStaysLast(items, InsertItem(init, x), x);
      } else {
        forall i | 0 <= i < |init| ensures !TextLess(PathText(x.path), PathText(items[i].path)) {
          TextNotLess(PathText(x.path), PathText(last.path), PathText(items[i].path));
        }
      }
    }
  }

  lemma LastStaysLast(items: seq<Item>, rest: seq<Item>, x: Item)
    requires InPathOrder(items) && items != [] && InPathOrder(rest)
    requires forall y :: y in rest ==> y == x || y in items[..|items| - 1]
    requires !TextLess(PathText(items[|items| - 1].path), PathText(x.path))
    ensures InPathOrder(rest + [items[|items| - 1]])
  {
    var last := items[|items| - 1];
    forall i | 0 <= i < |rest| ensures !TextLess(PathText(last.path), PathText(rest[i].path)) {
      assert rest[i] in rest;
    }
  }

  lemma {:induction false} SortOrders(items: seq<Item>)
    ensures InPathOrder(SortItems(items)) && multiset(SortItems(items)) == multiset(items)
  {
    if items != [] {
      assert items == items[..|items| - 1] + [items[|items| - 1]];
      SortOrders(items[..|items| - 1]);
      InsertOrders(SortItems(items[..|items| - 1]), items[|items| - 1]);
      InsertAdds(SortItems(items[..|items| - 1]), items[|items| - 1]);
    }
  }

  /** The list is sorted by path, and lists each thing as often as it was found. */
  lemma ScanIsSorted(entries: seq<Entry>, directories: seq<Path>)
    ensures InPathOrder(Scan(entries, directories))
    ensures multiset(Scan(entries, directories)) == multiset(TopItems(entries)) + multiset(NestedItems(directories))
  {
    SortOrders(TopItems(entries) + NestedItems(directories));
  }

  lemma {:induction false} TopItemsAre(entries: seq<Entry>)
    ensures forall x :: x in TopItems(entries) <==> exists e :: e in entries && !IsSource(e.name) && x == Item([e.name], Classify(e))
  {
    if entries != [] {
      assert entries == entries[..|entries| - 1] + [entries[|entries| - 1]];
      TopItemsAre(entries[..|entries| - 1]);
    }
  }

  lemma {:induction false} NestedItemsAre(directories: seq<Path>)
    ensures forall x :: x in NestedItems(directories) <==> exists d :: d in directories && IsGenerated(d) && x == Item(d, Delete)
  {
    if directories != [] {
      assert directories == directories[..|directories| - 1] + [directories[|directories| - 1]];
      NestedItemsAre(directories[..|directories| - 1]);
    }
  }

  // ---------------------------------------------------------------- what a scan lists

  /** A name a file system can list. */
  predicate IsName(name: string) { name != "" && name != "." && name != ".." }

  ghost predicate Listed(entries: seq<Entry>, directories: seq<Path>) {
    && (forall e :: e in entries ==> IsName(e.name))
    && (forall d :: d in directories ==> forall i :: 0 <= i < |d| ==> IsName(d[i]))
  }

  /** Exactly: each entry at the top that is no source, as it is classified, and each generated
      directory below a source root, to be deleted. */
  lemma ScanIs(entries: seq<Entry>, directories: seq<Path>, x: Item)
    ensures x in Scan(entries, directories) <==>
              || (exists e :: e in entries && !IsSource(e.name) && x == Item([e.name], Classify(e)))
              || (exists d :: d in directories && IsGenerated(d) && x == Item(d, Delete))
  {
    SortKeeps(TopItems(entries) + NestedItems(directories));
    TopItemsAre(entries);
    NestedItemsAre(directories);
  }

  lemma TopIsSafe(e: Entry)
    requires IsName(e.name) && !IsSource(e.name)
    ensures Normal([e.name]) && [e.name] != [".git"]
  {
    assert [e.name][0] == e.name;
  }

  lemma NestedIsSafe(d: Path)
    requires IsGenerated(d) && forall i :: 0 <= i < |d| ==> IsName(d[i])
    ensures Normal(d) && d != [".git"]
  {
    assert |[".git"]| == 1;
  }

  /** So what a scan wants archived stands at the top of the repository, every path it lists is normal,
      and neither the repository, nor its .git, nor a source file or root is among them. */
  lemma ScanIsSafe(entries: seq<Entry>, directories: seq<Path>, x: Item)
    requires Listed(entries, directories) && x in Scan(entries, directories)
    ensures Normal(x.path) && x.path != [".git"] && (|x.path| == 1 ==> !IsSource(x.path[0]))
    ensures x.action.Archive? ==> |x.path| == 1
  {
    ScanIs(entries, directories, x);
    if e :| e in entries && !IsSource(e.name) && x == Item([e.name], Classify(e)) {
      TopIsSafe(e);
    } else {
      var d :| d in directories && IsGenerated(d) && x == Item(d, Delete);
      NestedIsSafe(d);
    }
  }

  /** An archive made from a scan has no clash: every copy stays. */
  lemma ScansDoNotClash(tree: seq<File>, entries: seq<Entry>, directories: seq<Path>)
    requires Distinct(tree) && Listed(entries, directories)
    ensures TopLevelFiles(tree, Scan(entries, directories))
    ensures NoClash(Evidence(tree, Scan(entries, directories)))
  {
    var items := Scan(entries, directories);
    forall k | 0 <= k < |items| && items[k].action.Archive? ensures |items[k].path| == 1 {
      ScanIsSafe(entries, directories, items[k]);
    }
    TopLevelItemsDoNotClash(tree, items);
  }

  // ---------------------------------------------------------------- the loops

  method ScanWorkspace(entries: seq<Entry>, directories: seq<Path>) returns (items: seq<Item>)
    ensures items == Scan(entries, directories)
  {
    items := [];
    for i := 0 to |entries|
      invariant items == TopItems(entries[..i])
    {
      var e := entries[i];
      assert entries[..i + 1][..i] == entries[..i];
      if e.name == ".git" || e.name in SOURCE_ROOTS || e.name in SOURCE_FILES { continue; }
      items := items + [Item([e.name], Classify(e))];
    }
    assert entries[..|entries|] == entries;
    var top := items;
    for i := 0 to |directories|
      invariant items == top + NestedItems(directories[..i])
    {
      assert directories[..i + 1][..i] == directories[..i];
      if IsGenerated(directories[i]) { items := items + [Item(directories[i], Delete)]; }
    }
    assert directories[..|directories|] == directories;
    items := SortItems(items);
  }
}
