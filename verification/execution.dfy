/** One run of the generator against a file system: create the output tree, then
    write every artifact with `writeFileSync`, which replaces an existing file and
    throws when the file's parent is not a directory or its path is one. */
module Execution {
  import opened Text
  import opened Palette
  import opened Manifest
  import opened Directories
  import opened Documents
  import opened Generator

  /** The directories that exist and the regular files, keyed by path. */
  datatype FileSystem = FileSystem(dirs: set<string>, files: map<string, Content>)

  /** A run either finishes, or stops at the first call that throws, keeping
      everything done before it. `path` is the path that call was given. */
  datatype Outcome =
    | Done(fs: FileSystem)
    | Threw(fs: FileSystem, path: string)

  /** `writeFileSync` can write `a`: the parent of its path is a directory
      (otherwise `ENOENT` or `ENOTDIR`), and the path itself is not one (`EISDIR`). */
  predicate Writable(dirs: set<string>, a: Artifact) {
    Parent(a.Path()) in dirs && a.Path() !in dirs
  }

  /** The index of the first artifact that cannot be written, or `|arts|`. */
  function FirstFailing(arts: seq<Artifact>, dirs: set<string>): (k: nat)
    ensures k <= |arts|
    ensures forall j :: 0 <= j < k ==> Writable(dirs, arts[j])
    ensures k < |arts| ==> !Writable(dirs, arts[k])
    decreases |arts|
  {
    if |arts| == 0 then 0
    else if !Writable(dirs, arts[0]) then 0
    else 1 + FirstFailing(arts[1..], dirs)
  }

  /** `fs.writeFileSync(path, content)`. */
  function WriteFile(fs: FileSystem, a: Artifact): (r: Outcome)
    ensures r.Done? <==> Writable(fs.dirs, a)
    ensures r.fs.dirs == fs.dirs
    ensures r.Done? ==> a.Path() in r.fs.files && r.fs.files[a.Path()] == a.content
    ensures r.Done? ==> forall k :: k != a.Path() ==> (k in r.fs.files <==> k in fs.files)
    ensures r.Done? ==> forall k :: k in fs.files && k != a.Path() ==> r.fs.files[k] == fs.files[k]
    ensures r.Threw? ==> r.fs == fs && r.path == a.Path()
  {
    if Writable(fs.dirs, a) then Done(FileSystem(fs.dirs, fs.files[a.Path() := a.content]))
    else Threw(fs, a.Path())
  }

  /** The writes of `main`, one after another; the first failure aborts the rest. */
  function WriteAll(fs: FileSystem, arts: seq<Artifact>): (r: Outcome)
    ensures r.fs.dirs == fs.dirs
    ensures r.Done? <==> FirstFailing(arts, fs.dirs) == |arts|
    ensures r.Threw? ==> r.path == arts[FirstFailing(arts, fs.dirs)].Path()
    decreases |arts|
  {
    if |arts| == 0 then Done(fs)
    else match WriteFile(fs, arts[0])
      case Threw(f, p) => Threw(f, p)
      case Done(f) => WriteAll(f, arts[1..])
  }

  /** The destination paths of a sequence of artifacts. */
  function Paths(arts: seq<Artifact>): set<string> {
    set i | 0 <= i < |arts| :: arts[i].Path()
  }

  /** `after` is `before` with every artifact of `arts` written into it: each path
      holds its artifact's content, no other path appears, and the rest is untouched. */
  ghost predicate Wrote(before: map<string, Content>, after: map<string, Content>, arts: seq<Artifact>) {
    && (forall i :: 0 <= i < |arts| ==> arts[i].Path() in after && after[arts[i].Path()] == arts[i].content)
    && (forall k :: k in after <==> k in before || k in Paths(arts))
    && (forall k :: k in before && k !in Paths(arts) ==> after[k] == before[k])
  }

  /** A failed run keeps exactly the writes before the failing one. */
  lemma {:induction false} WriteAllKeepsPrefix(fs: FileSystem, arts: seq<Artifact>)
    requires WriteAll(fs, arts).Threw?
    ensures WriteAll(fs, arts).fs == WriteAll(fs, arts[..FirstFailing(arts, fs.dirs)]).fs
    decreases |arts|
  {
    var k := FirstFailing(arts, fs.dirs);
    if k > 0 {
      var f := WriteFile(fs, arts[0]).fs;
      assert WriteAll(fs, arts) == WriteAll(f, arts[1..]);
      assert FirstFailing(arts[1..], f.dirs) == k - 1;
      WriteAllKeepsPrefix(f, arts[1..]);
      assert arts[..k][1..] == arts[1..][..k - 1];
      assert WriteAll(fs, arts[..k]) == WriteAll(f, arts[..k][1..]);
    } else {
      assert WriteAll(fs, arts).fs == fs;
    }
  }

  /** When every artifact can be written and no two share a path, the writes all
      succeed and leave each artifact's content at its path. */
  lemma {:induction false} WriteAllSucceeds(fs: FileSystem, arts: seq<Artifact>)
    requires forall i :: 0 <= i < |arts| ==> Writable(fs.dirs, arts[i])
    requires DistinctPaths(arts)
    ensures WriteAll(fs, arts).Done?
    ensures Wrote(fs.files, WriteAll(fs, arts).fs.files, arts)
    decreases |arts|
  {
    if |arts| > 0 {
      var f := WriteFile(fs, arts[0]).fs;
      var rest := arts[1..];
      assert WriteAll(fs, arts) == WriteAll(f, rest);
      assert f.files == fs.files[arts[0].Path() := arts[0].content];
      DistinctTail(arts);
      WriteAllSucceeds(f, rest);
      assert arts == [arts[0]] + rest;
      WroteCons(fs.files, WriteAll(f, rest).fs.files, arts[0], rest);
    }
  }

  /** Dropping the first artifact keeps the paths distinct, and the first path is
      not among the rest. */
  lemma DistinctTail(arts: seq<Artifact>)
    requires |arts| > 0 && DistinctPaths(arts)
    ensures DistinctPaths(arts[1..]) && arts[0].Path() !in Paths(arts[1..])
  {
    var rest := arts[1..];
    assert forall i :: 0 <= i < |rest| ==> rest[i] == arts[i + 1];
  }

  /** Writing one artifact and then the others writes them all. */
  lemma WroteCons(before: map<string, Content>, after: map<string, Content>, a: Artifact, rest: seq<Artifact>)
    requires a.Path() !in Paths(rest)
    requires Wrote(before[a.Path() := a.content], after, rest)
    ensures Wrote(before, after, [a] + rest)
  {
    var arts := [a] + rest;
    PathsCons(a, rest);
    forall i | 0 <= i < |arts|
      ensures arts[i].Path() in after && after[arts[i].Path()] == arts[i].content
    {
      if i > 0 {
        assert arts[i] == rest[i - 1];
      }
    }
  }

  /** Artifacts that share no path have as many paths as there are artifacts. */
  lemma {:induction false} PathsCount(arts: seq<Artifact>)
    requires DistinctPaths(arts)
    ensures |Paths(arts)| == |arts|
    decreases |arts|
  {
    if |arts| == 0 {
      assert Paths(arts) == {};
    } else {
      var rest := arts[1..];
      DistinctTail(arts);
      PathsCount(rest);
      assert arts == [arts[0]] + rest;
      PathsCons(arts[0], rest);
    }
  }

  /** The paths of a sequence are its head's path and the paths of its tail. */
  lemma PathsCons(a: Artifact, rest: seq<Artifact>)
    ensures Paths([a] + rest) == {a.Path()} + Paths(rest)
  {
    var arts := [a] + rest;
    assert arts[0] == a;
    forall x | x in Paths(arts)
      ensures x == a.Path() || x in Paths(rest)
    {
      var i :| 0 <= i < |arts| && arts[i].Path() == x;
      if i > 0 {
        assert arts[i] == rest[i - 1];
      }
    }
    forall x | x in Paths(rest)
      ensures x in Paths(arts)
    {
      var i :| 0 <= i < |rest| && rest[i].Path() == x;
      assert arts[i + 1] == rest[i];
    }
  }

  /** The two "last updated" dates: each legal document reads the clock
      (`new Date().toLocaleDateString()`) on its own. */
  datatype Dates = Dates(privacy: string, terms: string)

  /** The three documents written next to the asset tree, the listing first, each
      legal document stamped with its own date. */
  function DocumentArtifacts(dates: Dates): (r: seq<Artifact>)
    ensures |r| == 3
    ensures forall i :: 0 <= i < |r| ==> r[i].dir == DOCS_DIR
    ensures r[0].content == ListingJson(AppStoreListing())
    ensures r[1].content == PrivacyPolicy(dates.privacy) && r[2].content == TermsOfService(dates.terms)
  {
    [ Artifact(DOCS_DIR, LISTING_FILE, ListingJson(AppStoreListing())),
      Artifact(DOCS_DIR, PRIVACY_FILE, PrivacyPolicy(dates.privacy)),
      Artifact(DOCS_DIR, TERMS_FILE, TermsOfService(dates.terms)) ]
  }

  /** What `main` writes for a manifest, a palette and the documents' dates: the
      resolved assets followed by the three documents. */
  function Program(a: AppAssets, pwa: seq<nat>, p: Colors, dates: Dates): (r: seq<Artifact>)
    ensures |r| == |Resolve(a, pwa, p)| + 3
    ensures r[|r| - 3..] == DocumentArtifacts(dates)
  {
    Resolve(a, pwa, p) + DocumentArtifacts(dates)
  }

  /** Everything `main` writes, in order: 27 assets, then the 3 documents. */
  function Writes(dates: Dates): (r: seq<Artifact>)
    ensures |r| == 30
  {
    ManifestShape();
    Program(APP_ASSETS, PWA_SIZES, BRAND_COLORS, dates)
  }

  /** The directories files are written to. */
  const TREE: set<string> := ASSET_DIRS + {DOCS_DIR}


  /** Every directory of the tree is one of the directories `createDirectories` lists. */
  lemma TreeListed(d: string)
    requires d in TREE
    ensures exists i :: 0 <= i < |OUTPUT_DIRS| && OUTPUT_DIRS[i] == d
  {
    if d == DOCS_DIR { assert OUTPUT_DIRS[0] == d; }
    else if d == IOS_ICONS_DIR { assert OUTPUT_DIRS[2] == d; }
    else if d == IOS_SCREENS_DIR { assert OUTPUT_DIRS[3] == d; }
    else if d == ANDROID_DIR { assert OUTPUT_DIRS[4] == d; }
    else if d == ANDROID_ICONS_DIR { assert OUTPUT_DIRS[5] == d; }
    else { assert OUTPUT_DIRS[6] == d; }
  }

  /** After `createDirectories` every directory of the tree is a path `existsSync`
      reports: a directory, or a regular file that was already there. */
  lemma TreeCreated(existing: set<string>)
    ensures TREE <= CreateDirectories(existing).existing
  {
    var after := CreateDirectories(existing).existing;
    forall d | d in TREE
      ensures d in after
    {
      TreeListed(d);
    }
  }

  /** Every path `existsSync` reports: directories and regular files alike. */
  function Existing(fs: FileSystem): (e: set<string>)
    ensures fs.dirs <= e && fs.files.Keys <= e
  {
    fs.dirs + fs.files.Keys
  }

  /** `fs` once the recursive mkdirs that led to `st` have run: the paths they added
      are directories, the regular files stay as they were. */
  function WithDirs(fs: FileSystem, st: DirState): (r: FileSystem)
    ensures r.files == fs.files && fs.dirs <= r.dirs
    ensures forall x :: x in st.existing && x !in fs.files ==> x in r.dirs
  {
    FileSystem(fs.dirs + (st.existing - fs.files.Keys), fs.files)
  }

  /** Create the tree, then write `arts`. */
  function RunWith(fs: FileSystem, arts: seq<Artifact>): (r: Outcome)
    // a regular file in the way of a recursive mkdir stops the run before any write
    ensures !Clear(OUTPUT_DIRS, Existing(fs), fs.files.Keys) ==>
              r.Threw? && r.fs.files == fs.files && r.path in OUTPUT_DIRS
    // otherwise every listed directory that is not a regular file is a directory
    ensures Clear(OUTPUT_DIRS, Existing(fs), fs.files.Keys) ==>
              forall i :: 0 <= i < |OUTPUT_DIRS| && OUTPUT_DIRS[i] !in fs.files ==> OUTPUT_DIRS[i] in r.fs.dirs
    ensures fs.dirs <= r.fs.dirs
  {
    match CreateDirectoriesChecked(Existing(fs), fs.files.Keys)
    case Blocked(st, d) => Threw(WithDirs(fs, st), d)
    case Made(st) => WriteAll(WithDirs(fs, st), arts)
  }

  /** `main()`: create the directories, then write the assets and the documents. */
  function Run(fs: FileSystem, dates: Dates): (r: Outcome)
    ensures !Clear(OUTPUT_DIRS, Existing(fs), fs.files.Keys) ==>
              r.Threw? && r.fs.files == fs.files && r.path in OUTPUT_DIRS
    ensures fs.dirs <= r.fs.dirs
  {
    var w := Writes(dates);
    RunWithStops(fs, w);
    RunWith(fs, w)
  }

  /** What `RunWith` promises, stated for one given sequence of artifacts. It adds
      nothing to `RunWith`'s contract; `Run` calls it so that the solver checks
      `Run` without unfolding the literal manifest behind `Writes`. */
  lemma RunWithStops(fs: FileSystem, arts: seq<Artifact>)
    ensures !Clear(OUTPUT_DIRS, Existing(fs), fs.files.Keys) ==>
              RunWith(fs, arts).Threw? && RunWith(fs, arts).fs.files == fs.files
              && RunWith(fs, arts).path in OUTPUT_DIRS
    ensures fs.dirs <= RunWith(fs, arts).fs.dirs
  {
  }

  /** The documents sit in one directory under three different names. */
  lemma DocumentsDistinct(dates: Dates)
    ensures Placed(DocumentArtifacts(dates), {DOCS_DIR}) && DistinctPaths(DocumentArtifacts(dates))
  {
    DocumentNames(ListingJson(AppStoreListing()), PrivacyPolicy(dates.privacy), TermsOfService(dates.terms));
  }

  lemma DocumentFileNames()
    ensures '/' !in LISTING_FILE && '/' !in PRIVACY_FILE && '/' !in TERMS_FILE
    ensures '.' in LISTING_FILE && '.' in PRIVACY_FILE && '.' in TERMS_FILE
    ensures LISTING_FILE != PRIVACY_FILE && LISTING_FILE != TERMS_FILE && PRIVACY_FILE != TERMS_FILE
  {
    assert LISTING_FILE[17] == '.' && PRIVACY_FILE[14] == '.' && TERMS_FILE[16] == '.';
  }

  /** The three document names are plain and different, whatever the contents. */
  lemma DocumentNames(c1: Content, c2: Content, c3: Content)
    ensures var r := [Artifact(DOCS_DIR, LISTING_FILE, c1), Artifact(DOCS_DIR, PRIVACY_FILE, c2),
                      Artifact(DOCS_DIR, TERMS_FILE, c3)];
      Placed(r, {DOCS_DIR}) && DistinctPaths(r)
  {
    var r := [Artifact(DOCS_DIR, LISTING_FILE, c1), Artifact(DOCS_DIR, PRIVACY_FILE, c2),
              Artifact(DOCS_DIR, TERMS_FILE, c3)];
    DocumentFileNames();
    assert DistinctFiles(r);
    GroupDistinct(r, DOCS_DIR);
  }

  /** The documents' directory is none of the asset directories. */
  lemma DocsApart()
    ensures ASSET_DIRS !! {DOCS_DIR}
  {
    OutputDirsDistinct();
  }

  /** For a well-formed manifest no written file overwrites another, and each lies
      in the output tree. */
  lemma ProgramPlaced(a: AppAssets, pwa: seq<nat>, p: Colors, dates: Dates)
    requires WellFormed(a, pwa)
    ensures Placed(Program(a, pwa, p, dates), TREE)
    ensures DistinctPaths(Program(a, pwa, p, dates))
  {
    ResolvePathsDistinct(a, pwa, p);
    DocumentsDistinct(dates);
    DocsApart();
    AppendDistinct(Resolve(a, pwa, p), ASSET_DIRS, DocumentArtifacts(dates), {DOCS_DIR});
  }

  /** The generator writes 30 files: 27 assets and 3 documents. */
  lemma WriteCount(dates: Dates)
    ensures |Resolve(APP_ASSETS, PWA_SIZES, BRAND_COLORS)| == 27
    ensures |Writes(dates)| == 30
  {
    ManifestShape();
  }

  /** The actual writes are collision-free and inside the tree. */
  lemma WritesPlaced(dates: Dates)
    ensures Placed(Writes(dates), TREE)
    ensures DistinctPaths(Writes(dates))
  {
    ManifestShape();
    ProgramPlaced(APP_ASSETS, PWA_SIZES, BRAND_COLORS, dates);
  }

  /** Every drawing the generator writes is proper: no icon has a degenerate disc
      and every launch layout keeps its circles and text anchors inside its canvas. */
  lemma WritesProper(dates: Dates)
    ensures AllProper(Writes(dates))
  {
    ManifestDrawable();
    ProgramProper(APP_ASSETS, PWA_SIZES, BRAND_COLORS, dates);
  }

  /** A drawable manifest makes the whole program's output proper. */
  lemma ProgramProper(a: AppAssets, pwa: seq<nat>, p: Colors, dates: Dates)
    requires Drawable(a, pwa)
    ensures AllProper(Program(a, pwa, p, dates))
  {
    ResolveProper(a, pwa, p);
    DocumentsProper(dates);
    AppendProper(Resolve(a, pwa, p), DocumentArtifacts(dates));
  }

  /** The documents are not drawings, so they are trivially proper. */
  lemma DocumentsProper(dates: Dates)
    ensures AllProper(DocumentArtifacts(dates))
  {
    var r := DocumentArtifacts(dates);
    assert !r[0].content.IconSvg? && !r[0].content.ScreenSvg?;
    assert !r[1].content.IconSvg? && !r[1].content.ScreenSvg?;
    assert !r[2].content.IconSvg? && !r[2].content.ScreenSvg?;
  }

  /** No written path is a listed directory or one of their ancestors. */
  predicate OffTree(arts: seq<Artifact>) {
    forall i, j :: 0 <= i < |arts| && 0 <= j < |OUTPUT_DIRS| ==> arts[i].Path() !in Ancestors(OUTPUT_DIRS[j])
  }

  /** The listed directories have no '.' in them. */
  lemma OutputDirsUndotted()
    ensures forall j :: 0 <= j < |OUTPUT_DIRS| ==> '.' !in OUTPUT_DIRS[j]
  {
  }

  /** Files with an extension, written into the tree, never land where a directory
      of the tree goes: the directories' paths have no '.' at all. */
  lemma PlacedOffTree(arts: seq<Artifact>)
    requires Placed(arts, TREE)
    ensures OffTree(arts)
  {
    OutputDirsUndotted();
    forall i, j | 0 <= i < |arts| && 0 <= j < |OUTPUT_DIRS|
      ensures arts[i].Path() !in Ancestors(OUTPUT_DIRS[j])
    {
      var a := arts[i];
      var k :| 0 <= k < |a.file| && a.file[k] == '.';
      assert a.Path()[|a.dir| + 1 + k] == '.';
      DottedNotAncestor(a.Path(), OUTPUT_DIRS[j]);
    }
  }

  /** A path with a '.' is no ancestor of a path without one. */
  lemma DottedNotAncestor(p: string, o: string)
    requires '.' in p && '.' !in o
    ensures p !in Ancestors(o)
  {
    forall x | x in Ancestors(o)
      ensures '.' !in x
    {
      AncestorIsPrefix(o, x);
    }
  }

  /** Nothing is in the generator's way: no regular file sits at a listed directory
      or at one of its ancestors, and no directory sits at a path it writes. */
  predicate Unobstructed(fs: FileSystem, arts: seq<Artifact>) {
    && (forall j :: 0 <= j < |OUTPUT_DIRS| ==> !Obstructed(OUTPUT_DIRS[j], fs.files.Keys))
    && (forall i :: 0 <= i < |arts| ==> arts[i].Path() !in fs.dirs)
  }

  /** In an unobstructed file system the tree is created without a throw, and then
      every file of the tree can be written. */
  lemma ReadyToWrite(fs: FileSystem, arts: seq<Artifact>)
    requires Placed(arts, TREE) && Unobstructed(fs, arts)
    ensures Clear(OUTPUT_DIRS, Existing(fs), fs.files.Keys)
    ensures forall i :: 0 <= i < |arts| ==>
              Writable(WithDirs(fs, CreateDirectories(Existing(fs))).dirs, arts[i])
  {
    var st := CreateDirectories(Existing(fs));
    var f := WithDirs(fs, st);
    TreeCreated(Existing(fs));
    PlacedOffTree(arts);
    forall i | 0 <= i < |arts|
      ensures Writable(f.dirs, arts[i])
    {
      var a := arts[i];
      ParentOfJoin(a.dir, a.file);
      TreeListed(a.dir);
      assert a.dir in Ancestors(a.dir);
    }
  }

  /** In an unobstructed file system, creating the tree and then writing
      collision-free files of the tree finishes, and each file holds its content. */
  lemma RunWithSucceeds(fs: FileSystem, arts: seq<Artifact>)
    requires Placed(arts, TREE) && DistinctPaths(arts) && Unobstructed(fs, arts)
    ensures RunWith(fs, arts).Done?
    ensures Wrote(fs.files, RunWith(fs, arts).fs.files, arts)
  {
    ReadyToWrite(fs, arts);
    WriteAllSucceeds(WithDirs(fs, CreateDirectories(Existing(fs))), arts);
  }

  /** Writing the same artifacts into a map that already holds them changes nothing. */
  lemma WroteTwice(before: map<string, Content>, once: map<string, Content>, twice: map<string, Content>, arts: seq<Artifact>)
    requires Wrote(before, once, arts) && Wrote(once, twice, arts)
    ensures twice == once
  {
    assert twice.Keys == once.Keys;
    forall k | k in once
      ensures twice[k] == once[k]
    {
      if k in Paths(arts) {
        var i :| 0 <= i < |arts| && arts[i].Path() == k;
      }
    }
  }

  /** A run that succeeded leaves the file system unobstructed for the next one. */
  lemma StaysUnobstructed(fs: FileSystem, arts: seq<Artifact>)
    requires Placed(arts, TREE) && DistinctPaths(arts) && Unobstructed(fs, arts)
    ensures Unobstructed(RunWith(fs, arts).fs, arts)
    ensures forall j :: 0 <= j < |OUTPUT_DIRS| ==> OUTPUT_DIRS[j] in RunWith(fs, arts).fs.dirs
  {
    var once := RunWith(fs, arts).fs;
    ReadyToWrite(fs, arts);
    RunWithSucceeds(fs, arts);
    PlacedOffTree(arts);
    forall j | 0 <= j < |OUTPUT_DIRS|
      ensures !Obstructed(OUTPUT_DIRS[j], once.files.Keys)
    {
      forall x | x in Ancestors(OUTPUT_DIRS[j]) && x in once.files
        ensures false
      {
      }
    }
    forall j | 0 <= j < |OUTPUT_DIRS|
      ensures OUTPUT_DIRS[j] in once.dirs
    {
      assert OUTPUT_DIRS[j] in Ancestors(OUTPUT_DIRS[j]);
    }
  }

  /** With the whole tree in place, the directory loop creates nothing. */
  lemma TreePresent(fs: FileSystem)
    requires forall j :: 0 <= j < |OUTPUT_DIRS| ==> OUTPUT_DIRS[j] in fs.dirs
    ensures CreateDirectories(Existing(fs)).created == []
    ensures WithDirs(fs, CreateDirectories(Existing(fs))) == fs
  {
    var e := Existing(fs);
    EnsureAllPresent(DirState(e, []), OUTPUT_DIRS);
  }

  /** In an unobstructed file system, doing it a second time changes nothing. */
  lemma RunWithIdempotent(fs: FileSystem, arts: seq<Artifact>)
    requires Placed(arts, TREE) && DistinctPaths(arts) && Unobstructed(fs, arts)
    ensures RunWith(RunWith(fs, arts).fs, arts) == RunWith(fs, arts)
    ensures CreateDirectories(Existing(RunWith(fs, arts).fs)).created == []
  {
    var once := RunWith(fs, arts).fs;
    RunWithSucceeds(fs, arts);
    StaysUnobstructed(fs, arts);
    RunWithSucceeds(once, arts);
    TreePresent(once);
    WroteTwice(fs.files, once.files, RunWith(once, arts).fs.files, arts);
  }

  /** In an unobstructed file system `main` finishes; each of its files holds its
      own content, and other files are untouched. */
  lemma RunSucceeds(fs: FileSystem, dates: Dates)
    requires Unobstructed(fs, Writes(dates))
    ensures Run(fs, dates).Done?
    ensures Wrote(fs.files, Run(fs, dates).fs.files, Writes(dates))
  {
    var w := Writes(dates);
    WritesPlaced(dates);
    RunWithSucceeds(fs, w);
    assert Run(fs, dates) == RunWith(fs, w);
  }

  /** On an empty disk a run leaves exactly one file per artifact. */
  lemma FreshRunWithFiles(arts: seq<Artifact>)
    requires Placed(arts, TREE) && DistinctPaths(arts)
    ensures RunWith(FileSystem({}, map[]), arts).Done?
    ensures |RunWith(FileSystem({}, map[]), arts).fs.files| == |arts|
  {
    var fs := FileSystem({}, map[]);
    RunWithSucceeds(fs, arts);
    var after := RunWith(fs, arts).fs.files;
    assert after.Keys == Paths(arts);
    PathsCount(arts);
  }

  /** On an empty disk `main` leaves exactly its 30 files. */
  lemma FreshRunFiles(dates: Dates)
    ensures Run(FileSystem({}, map[]), dates).Done?
    ensures |Run(FileSystem({}, map[]), dates).fs.files| == 30
  {
    var w := Writes(dates);
    WritesPlaced(dates);
    FreshRunWithFiles(w);
    assert Run(FileSystem({}, map[]), dates) == RunWith(FileSystem({}, map[]), w);
  }

  /** Where the two dated documents go: the only files whose content depends on
      the day of the run. */
  const DATED_PATHS: set<string> := {Join(DOCS_DIR, PRIVACY_FILE), Join(DOCS_DIR, TERMS_FILE)}

  /** What `main` writes whatever the day: the 27 assets, then the store listing. */
  function Undated(): seq<Artifact> {
    Resolve(APP_ASSETS, PWA_SIZES, BRAND_COLORS) + [Artifact(DOCS_DIR, LISTING_FILE, ListingJson(AppStoreListing()))]
  }

  /** What `main` writes last: the privacy policy and the terms of service of the day. */
  function Dated(dates: Dates): seq<Artifact> {
    DocumentArtifacts(dates)[1..]
  }

  /** `main`'s files are the undated ones, then the two dated documents. */
  lemma WritesSplit(dates: Dates)
    ensures Writes(dates) == Undated() + Dated(dates)
  {
    ProgramSplit(Resolve(APP_ASSETS, PWA_SIZES, BRAND_COLORS), dates);
  }

  /** Any files followed by the documents are those files and the store listing,
      then the dated documents. */
  lemma ProgramSplit(r: seq<Artifact>, dates: Dates)
    ensures r + DocumentArtifacts(dates)
         == (r + [Artifact(DOCS_DIR, LISTING_FILE, ListingJson(AppStoreListing()))]) + Dated(dates)
  {
    DocumentsSplit(dates);
    AppendSplit(r, DocumentArtifacts(dates), 1);
  }

  /** The documents are the store listing, then the dated ones. */
  lemma DocumentsSplit(dates: Dates)
    ensures DocumentArtifacts(dates)[..1] == [Artifact(DOCS_DIR, LISTING_FILE, ListingJson(AppStoreListing()))]
  {
  }

  /** The last two documents go to the dated paths. */
  lemma DatedPaths(dates: Dates)
    ensures Paths(Dated(dates)) == DATED_PATHS
  {
    var d := Dated(dates);
    assert d[0].Path() == Join(DOCS_DIR, PRIVACY_FILE) && d[1].Path() == Join(DOCS_DIR, TERMS_FILE);
  }

  /** Cutting the second of two sequences moves its head to the first. */
  lemma AppendSplit<T>(r: seq<T>, u: seq<T>, n: nat)
    requires n <= |u|
    ensures r + u == (r + u[..n]) + u[n..]
  {
    assert u == u[..n] + u[n..];
  }

  /** Two runs' artifacts that write the same paths, in the same order. */
  predicate SamePaths(x: seq<Artifact>, y: seq<Artifact>) {
    |x| == |y| && forall i :: 0 <= i < |x| ==> x[i].Path() == y[i].Path()
  }

  /** The dated documents of any two days go to the same paths. */
  lemma DatedSamePaths(d1: Dates, d2: Dates)
    ensures SamePaths(Dated(d1), Dated(d2))
  {
  }

  /** Writing the same files first keeps two runs' paths the same. */
  lemma SamePathsAppend(r: seq<Artifact>, u: seq<Artifact>, v: seq<Artifact>)
    requires SamePaths(u, v)
    ensures SamePaths(r + u, r + v)
  {
    forall i | |r| <= i < |r| + |u|
      ensures (r + u)[i].Path() == (r + v)[i].Path()
    {
      assert (r + u)[i] == u[i - |r|] && (r + v)[i] == v[i - |r|];
    }
  }

  /** What keeps a file system unobstructed for one sequence of artifacts keeps it
      so for another that writes the same paths, which are then distinct too. */
  lemma SamePathsUnobstructed(fs: FileSystem, x: seq<Artifact>, y: seq<Artifact>)
    requires DistinctPaths(x) && Unobstructed(fs, x) && SamePaths(x, y)
    ensures DistinctPaths(y) && Unobstructed(fs, y)
  {
  }

  /** Two sequences that write the same paths in order write the same set of paths. */
  lemma SamePathsSet(x: seq<Artifact>, y: seq<Artifact>)
    requires SamePaths(x, y)
    ensures Paths(y) == Paths(x)
  {
    forall k | k in Paths(y) ensures k in Paths(x) {
      var i :| 0 <= i < |y| && y[i].Path() == k;
      assert x[i].Path() == k;
    }
    forall k | k in Paths(x) ensures k in Paths(y) {
      var i :| 0 <= i < |x| && x[i].Path() == k;
      assert y[i].Path() == k;
    }
  }

  /** Writing over a map the files of `r + v` where `r + u` was written keeps its
      keys, and when `u` and `v` go to the same paths, every path but those of `u`
      holds what it held. */
  lemma WroteSamePaths(before: map<string, Content>, once: map<string, Content>, twice: map<string, Content>,
                       r: seq<Artifact>, u: seq<Artifact>, v: seq<Artifact>)
    requires Wrote(before, once, r + u) && Wrote(once, twice, r + v) && SamePaths(u, v)
    ensures twice.Keys == once.Keys
    ensures forall k :: k in once && k !in Paths(u) ==> twice[k] == once[k]
  {
    var x, y := r + u, r + v;
    SamePathsAppend(r, u, v);
    SamePathsSet(x, y);
    forall k | k in once && k !in Paths(u)
      ensures twice[k] == once[k]
    {
      if k in Paths(x) {
        var i :| 0 <= i < |x| && x[i].Path() == k;
        if i < |r| {
          assert x[i] == r[i] == y[i];
        }
      }
    }
  }

  /** After a run of `r + u` on an unobstructed file system, a run of `r + v`, where
      `v` writes the same paths as `u`, also finishes. It adds no file, and every
      file but those of `u` keeps its content. */
  lemma RerunWith(fs: FileSystem, r: seq<Artifact>, u: seq<Artifact>, v: seq<Artifact>)
    requires Placed(r + u, TREE) && DistinctPaths(r + u) && Unobstructed(fs, r + u)
    requires Placed(r + v, TREE) && SamePaths(u, v)
    ensures var once := RunWith(fs, r + u).fs; var twice := RunWith(once, r + v);
      && twice.Done?
      && twice.fs.files.Keys == once.files.Keys
      && forall k :: k in once.files && k !in Paths(u) ==> twice.fs.files[k] == once.files[k]
  {
    var once := RunWith(fs, r + u).fs;
    RunWithSucceeds(fs, r + u);
    StaysUnobstructed(fs, r + u);
    SamePathsAppend(r, u, v);
    SamePathsUnobstructed(once, r + u, r + v);
    RunWithSucceeds(once, r + v);
    WroteSamePaths(fs.files, once.files, RunWith(once, r + v).fs.files, r, u, v);
  }

  /** `main` is the tree-then-writes run of its own artifacts. */
  lemma RunIsRunWith(fs: FileSystem, dates: Dates)
    ensures Run(fs, dates) == RunWith(fs, Writes(dates))
  {
  }

  /** `main` run again on another day, after a run on an unobstructed file system,
      finishes and leaves the same files; every file but the two dated documents,
      the 27 drawings and the store listing among them, keeps its content. */
  lemma RerunOtherDay(fs: FileSystem, d1: Dates, d2: Dates)
    requires Unobstructed(fs, Writes(d1))
    ensures Run(Run(fs, d1).fs, d2).Done?
    ensures Run(Run(fs, d1).fs, d2).fs.files.Keys == Run(fs, d1).fs.files.Keys
    ensures forall k :: k in Run(fs, d1).fs.files && k !in DATED_PATHS ==>
              Run(Run(fs, d1).fs, d2).fs.files[k] == Run(fs, d1).fs.files[k]
  {
    RunIsRunWith(fs, d1);
    RunIsRunWith(Run(fs, d1).fs, d2);
    RerunWritesOtherDay(fs, d1, d2);
  }

  /** `RerunOtherDay`, stated for the tree-then-writes runs of the two days' artifacts. */
  lemma RerunWritesOtherDay(fs: FileSystem, d1: Dates, d2: Dates)
    requires Unobstructed(fs, Writes(d1))
    ensures var once := RunWith(fs, Writes(d1)).fs; var twice := RunWith(once, Writes(d2));
      && twice.Done?
      && twice.fs.files.Keys == once.files.Keys
      && forall k :: k in once.files && k !in DATED_PATHS ==> twice.fs.files[k] == once.files[k]
  {
    WritesPlaced(d1);
    WritesPlaced(d2);
    WritesSplit(d1);
    WritesSplit(d2);
    DatedPaths(d1);
    DatedSamePaths(d1, d2);
    RerunWith(fs, Undated(), Dated(d1), Dated(d2));
  }

  /** Running the generator twice with the same dates on an unobstructed file
      system leaves the same file system as running it once, and the second run
      creates no directory. */
  lemma RunIdempotent(fs: FileSystem, dates: Dates)
    requires Unobstructed(fs, Writes(dates))
    ensures Run(Run(fs, dates).fs, dates) == Run(fs, dates)
    ensures CreateDirectories(Existing(Run(fs, dates).fs)).created == []
  {
    WritesPlaced(dates);
    RunWithIdempotent(fs, Writes(dates));
  }

  /** A regular file where a written file's directory should be makes the run
      throw (`ENOTDIR`), whether at a mkdir or at the write. */
  lemma FileAtDirectoryFails(fs: FileSystem, arts: seq<Artifact>, i: nat)
    requires i < |arts| && '/' !in arts[i].file
    requires arts[i].dir in fs.files && arts[i].dir !in fs.dirs
    ensures RunWith(fs, arts).Threw?
  {
    ParentOfJoin(arts[i].dir, arts[i].file);
    match CreateDirectoriesChecked(Existing(fs), fs.files.Keys)
    case Blocked(st, d) =>
    case Made(st) =>
      var f := WithDirs(fs, st);
      assert !Writable(f.dirs, arts[i]);
  }

  /** A directory at a path the run writes makes it throw (`EISDIR`). */
  lemma DirectoryAtPathFails(fs: FileSystem, arts: seq<Artifact>, i: nat)
    requires i < |arts| && arts[i].Path() in fs.dirs
    ensures RunWith(fs, arts).Threw?
  {
    match CreateDirectoriesChecked(Existing(fs), fs.files.Keys)
    case Blocked(st, d) =>
    case Made(st) =>
      assert !Writable(WithDirs(fs, st).dirs, arts[i]);
  }

  /** A regular file at `public/icons` lets the directory loop pass, since
      `existsSync` reports it, and then the first web-app icon cannot be written. */
  lemma WebIconDirAsFileFails(c: Content, dates: Dates)
    ensures Run(FileSystem({}, map[PWA_DIR := c]), dates).Threw?
  {
    WebIconFileFails(FileSystem({}, map[PWA_DIR := c]), APP_ASSETS, PWA_SIZES, BRAND_COLORS, dates);
  }

  /** The same for any manifest with at least one web-app size. */
  lemma WebIconFileFails(fs: FileSystem, a: AppAssets, pwa: seq<nat>, p: Colors, dates: Dates)
    requires |pwa| > 0 && PWA_DIR in fs.files && PWA_DIR !in fs.dirs
    ensures RunWith(fs, Program(a, pwa, p, dates)).Threw?
  {
    ProgramWebIcon(a, pwa, p, dates, 0);
    FileAtDirectoryFails(fs, Program(a, pwa, p, dates), OffsetsOf(a).pwa);
  }

  /** The web-app icons of a run sit after the three tables and the feature graphic. */
  lemma ProgramWebIcon(a: AppAssets, pwa: seq<nat>, p: Colors, dates: Dates, i: nat)
    requires i < |pwa|
    ensures OffsetsOf(a).pwa + i < |Program(a, pwa, p, dates)|
    ensures Program(a, pwa, p, dates)[OffsetsOf(a).pwa + i] == PwaEntry(pwa[i], p)
  {
    ResolveWebIcon(a, pwa, p, i);
    var r := Resolve(a, pwa, p);
    assert Program(a, pwa, p, dates)[OffsetsOf(a).pwa + i] == r[OffsetsOf(a).pwa + i];
  }

  /** The shipped run writes its two web-app icons right after the feature graphic,
      the 192 one first. */
  lemma ShippedWebIcons(dates: Dates)
    ensures |Writes(dates)| == 30
    ensures Writes(dates)[25] == PwaEntry(192, BRAND_COLORS)
    ensures Writes(dates)[26] == PwaEntry(512, BRAND_COLORS)
  {
    ManifestShape();
    ProgramWebIcon(APP_ASSETS, PWA_SIZES, BRAND_COLORS, dates, 0);
    ProgramWebIcon(APP_ASSETS, PWA_SIZES, BRAND_COLORS, dates, 1);
  }

  /** ... so they land at `public/icons/icon-192.svg` and `public/icons/icon-512.svg`,
      each drawn by the icon template at its size. */
  lemma ShippedWebIconPaths(dates: Dates)
    ensures Writes(dates)[25].Path() == "public/icons/icon-192.svg"
    ensures Writes(dates)[26].Path() == "public/icons/icon-512.svg"
    ensures Writes(dates)[25].content == IconSvg(BRAND_COLORS, 192)
    ensures Writes(dates)[26].content == IconSvg(BRAND_COLORS, 512)
  {
    ShippedWebIcons(dates);
    WebIconPaths(BRAND_COLORS);
  }

  /** The web-app icons of sizes 192 and 512 and where they go. */
  lemma WebIconPaths(p: Colors)
    ensures PwaEntry(192, p).Path() == "public/icons/icon-192.svg"
    ensures PwaEntry(512, p).Path() == "public/icons/icon-512.svg"
  {
    PwaNames();
    WebIconPathText();
  }

  /** The two web-app icon paths, spelled out. */
  lemma WebIconPathText()
    ensures PWA_DIR + "/" + "icon-192.svg" == "public/icons/icon-192.svg"
    ensures PWA_DIR + "/" + "icon-512.svg" == "public/icons/icon-512.svg"
  {
  }

  /** On a disk without directories the first write fails and nothing is written. */
  lemma EmptyDiskFails(files: map<string, Content>, arts: seq<Artifact>)
    requires |arts| > 0
    ensures WriteAll(FileSystem({}, files), arts).Threw?
    ensures WriteAll(FileSystem({}, files), arts).fs.files == files
    ensures WriteAll(FileSystem({}, files), arts).path == arts[0].Path()
  {
  }

  /** Without `createDirectories` the generator's first write already fails on an
      empty disk, at the first iOS icon, and nothing is written. */
  lemma WithoutDirectoriesFails(files: map<string, Content>, dates: Dates)
    ensures WriteAll(FileSystem({}, files), Writes(dates)).Threw?
    ensures WriteAll(FileSystem({}, files), Writes(dates)).fs.files == files
    ensures WriteAll(FileSystem({}, files), Writes(dates)).path == Writes(dates)[0].Path()
  {
    EmptyDiskFails(files, Writes(dates));
  }
}
