/** `createDirectories`: the file system's directory set is a set of '/'-separated
    paths; each listed directory that does not exist yet is created together with
    its missing ancestors (`mkdirSync` with `recursive: true`), and reported. */
module Directories {

  /** The output tree, in the order the generator ensures it. */
  const OUTPUT_DIRS: seq<string> := [
    "mobile-assets",
    "mobile-assets/ios",
    "mobile-assets/ios/icons",
    "mobile-assets/ios/launch-screens",
    "mobile-assets/android",
    "mobile-assets/android/icons",
    "public/icons"
  ]

  /** A path together with every proper '/'-prefix of it: what a recursive mkdir
      brings into existence. */
  function Ancestors(d: string): (r: set<string>)
    ensures d in r
  {
    {d} + set i | 0 < i < |d| && d[i] == '/' :: d[..i]
  }

  lemma AncestorIsPrefix(d: string, a: string)
    requires a in Ancestors(d)
    ensures |a| <= |d| && a == d[..|a|]
  {
  }

  /** The directories that exist, and the ones reported as created, in order. */
  datatype DirState = DirState(existing: set<string>, created: seq<string>)

  /** One iteration of the loop: create `d` (recursively) only if it is absent.
      `existing` holds every path `existsSync` reports, regular files included. */
  function Ensure(st: DirState, d: string): (r: DirState)
    ensures d in r.existing && st.existing <= r.existing
    ensures d in st.existing ==> r == st
    ensures d !in st.existing ==> r.created == st.created + [d]
    ensures forall x :: x in r.existing && x !in st.existing ==> x in Ancestors(d)
  {
    if d in st.existing then st
    else DirState(st.existing + Ancestors(d), st.created + [d])
  }

  /** The `forEach` over the listed directories. */
  function EnsureAll(st: DirState, ds: seq<string>): (r: DirState)
    ensures st.existing <= r.existing
    ensures |st.created| <= |r.created| <= |st.created| + |ds|
    ensures r.created[..|st.created|] == st.created
    decreases |ds|
  {
    if |ds| == 0 then st else EnsureAll(Ensure(st, ds[0]), ds[1..])
  }

  /** The entries of `ds` that are not in `existing`, in order. */
  function Missing(ds: seq<string>, existing: set<string>): (r: seq<string>)
    ensures forall x :: x in r <==> x in ds && x !in existing
    ensures |r| <= |ds|
  {
    if |ds| == 0 then []
    else if ds[0] in existing then Missing(ds[1..], existing)
    else [ds[0]] + Missing(ds[1..], existing)
  }

  /** No listed directory is brought into existence by creating an earlier one:
      each appears after its own ancestors, and none repeats. */
  predicate ParentsFirst(ds: seq<string>) {
    forall i, j :: 0 <= i < j < |ds| ==> ds[j] !in Ancestors(ds[i])
  }

  /** `x` is one of the listed directories or an ancestor of one. */
  ghost predicate UnderList(x: string, ds: seq<string>) {
    exists i :: 0 <= i < |ds| && x in Ancestors(ds[i])
  }

  /** The loop never removes a directory, and afterwards every listed one exists. */
  lemma {:induction false} EnsureAllCovers(st: DirState, ds: seq<string>)
    ensures st.existing <= EnsureAll(st, ds).existing
    ensures forall i :: 0 <= i < |ds| ==> ds[i] in EnsureAll(st, ds).existing
    decreases |ds|
  {
    if |ds| > 0 {
      var st' := Ensure(st, ds[0]);
      EnsureAllCovers(st', ds[1..]);
      forall i | 0 < i < |ds|
        ensures ds[i] in EnsureAll(st, ds).existing
      {
        assert ds[i] == ds[1..][i - 1];
      }
    }
  }

  /** Whatever the loop creates is a listed directory or one of its ancestors. */
  lemma {:induction false} EnsureAllWithin(st: DirState, ds: seq<string>)
    ensures forall x :: x in EnsureAll(st, ds).existing ==> x in st.existing || UnderList(x, ds)
    decreases |ds|
  {
    if |ds| > 0 {
      var st' := Ensure(st, ds[0]);
      EnsureAllWithin(st', ds[1..]);
      forall x | x in EnsureAll(st, ds).existing
        ensures x in st.existing || UnderList(x, ds)
      {
        if x !in st.existing {
          if x in st'.existing {
            assert x in Ancestors(ds[0]);
          } else {
            var i :| 0 <= i < |ds[1..]| && x in Ancestors(ds[1..][i]);
            assert x in Ancestors(ds[i + 1]);
          }
        }
      }
    }
  }

  /** With parents listed first, the report is exactly the listed directories
      that were missing beforehand, in list order. */
  lemma {:induction false} EnsureAllReports(st: DirState, ds: seq<string>)
    requires ParentsFirst(ds)
    ensures EnsureAll(st, ds).created == st.created + Missing(ds, st.existing)
    decreases |ds|
  {
    if |ds| > 0 {
      var st' := Ensure(st, ds[0]);
      ParentsFirstTail(ds);
      EnsureAllReports(st', ds[1..]);
      MissingAfterEnsure(st.existing, ds);
    }
  }

  lemma ParentsFirstTail(ds: seq<string>)
    requires |ds| > 0 && ParentsFirst(ds)
    ensures ParentsFirst(ds[1..])
  {
    forall i, j | 0 <= i < j < |ds[1..]|
      ensures ds[1..][j] !in Ancestors(ds[1..][i])
    {
      assert ds[1..][j] == ds[j + 1] && ds[1..][i] == ds[i + 1];
    }
  }

  /** Creating the first entry does not change which later entries are missing. */
  lemma MissingAfterEnsure(existing: set<string>, ds: seq<string>)
    requires |ds| > 0 && ParentsFirst(ds)
    ensures Missing(ds[1..], Ensure(DirState(existing, []), ds[0]).existing) == Missing(ds[1..], existing)
  {
    var after := Ensure(DirState(existing, []), ds[0]).existing;
    forall j | 0 <= j < |ds[1..]|
      ensures ds[1..][j] in after <==> ds[1..][j] in existing
    {
      assert ds[1..][j] == ds[j + 1];
    }
    MissingAgree(ds[1..], existing, after);
  }

  /** Two directory sets that agree on the listed paths miss the same ones. */
  lemma {:induction false} MissingAgree(ds: seq<string>, a: set<string>, b: set<string>)
    requires forall j :: 0 <= j < |ds| ==> (ds[j] in a <==> ds[j] in b)
    ensures Missing(ds, a) == Missing(ds, b)
    decreases |ds|
  {
    if |ds| > 0 {
      assert forall j :: 0 <= j < |ds[1..]| ==> ds[1..][j] == ds[j + 1];
      MissingAgree(ds[1..], a, b);
    }
  }

  /** When every listed directory already exists the loop is a no-op. */
  lemma {:induction false} EnsureAllPresent(st: DirState, ds: seq<string>)
    requires forall i :: 0 <= i < |ds| ==> ds[i] in st.existing
    ensures EnsureAll(st, ds) == st
    decreases |ds|
  {
    if |ds| > 0 {
      assert forall i :: 0 <= i < |ds[1..]| ==> ds[1..][i] == ds[i + 1];
      EnsureAllPresent(st, ds[1..]);
    }
  }

  /** The output tree lists every directory after its parents. */
  lemma OutputDirsParentsFirst()
    ensures ParentsFirst(OUTPUT_DIRS)
  {
    var ds := OUTPUT_DIRS;
    forall i, j | 0 <= i < j < |ds|
      ensures ds[j] !in Ancestors(ds[i])
    {
      if ds[j] in Ancestors(ds[i]) {
        AncestorIsPrefix(ds[i], ds[j]);
        assert false;
      }
    }
  }

  /** `createDirectories()` run against the directories that already exist. */
  function CreateDirectories(existing: set<string>): (r: DirState)
    // afterwards existsSync reports every listed path, and nothing was removed
    ensures forall i :: 0 <= i < |OUTPUT_DIRS| ==> OUTPUT_DIRS[i] in r.existing
    ensures existing <= r.existing
    // only listed directories and their ancestors are added
    ensures forall x :: x in r.existing ==> x in existing || UnderList(x, OUTPUT_DIRS)
    // exactly the missing directories are created, each once, in list order
    ensures r.created == Missing(OUTPUT_DIRS, existing)
  {
    var st := DirState(existing, []);
    EnsureAllCovers(st, OUTPUT_DIRS);
    EnsureAllWithin(st, OUTPUT_DIRS);
    OutputDirsParentsFirst();
    EnsureAllReports(st, OUTPUT_DIRS);
    EnsureAll(st, OUTPUT_DIRS)
  }

  /** A recursive mkdir fails (`ENOTDIR`) when a regular file sits where one of the
      directories it has to create would go. */
  datatype Made = Made(st: DirState) | Blocked(st: DirState, dir: string)

  /** `mkdirSync(d, { recursive: true })` would meet one of the regular files `files`. */
  predicate Obstructed(d: string, files: set<string>) {
    !(Ancestors(d) !! files)
  }

  /** The loop as it runs beside regular files: a directory that `existsSync` does
      not report is created unless a file obstructs it, and then the loop throws. */
  function EnsureAllChecked(st: DirState, files: set<string>, ds: seq<string>): (r: Made)
    ensures st.existing <= r.st.existing
    ensures r.Blocked? ==> r.dir in ds && r.dir !in st.existing && Obstructed(r.dir, files)
    decreases |ds|
  {
    if |ds| == 0 then Made(st)
    else if ds[0] !in st.existing && Obstructed(ds[0], files) then Blocked(st, ds[0])
    else EnsureAllChecked(Ensure(st, ds[0]), files, ds[1..])
  }

  /** No listed directory that does not exist yet is obstructed by a file. */
  predicate Clear(ds: seq<string>, existing: set<string>, files: set<string>) {
    forall i :: 0 <= i < |ds| && ds[i] !in existing ==> !Obstructed(ds[i], files)
  }

  /** With nothing in the way the checked loop is the plain one. */
  lemma {:induction false} CheckedWhenClear(st: DirState, files: set<string>, ds: seq<string>)
    requires Clear(ds, st.existing, files)
    ensures EnsureAllChecked(st, files, ds) == Made(EnsureAll(st, ds))
    decreases |ds|
  {
    if |ds| > 0 {
      var st' := Ensure(st, ds[0]);
      forall j | 0 <= j < |ds[1..]| && ds[1..][j] !in st'.existing
        ensures !Obstructed(ds[1..][j], files)
      {
        assert ds[1..][j] == ds[j + 1];
      }
      CheckedWhenClear(st', files, ds[1..]);
    }
  }

  /** With parents listed first, an obstructed missing directory stops the loop. */
  lemma {:induction false} CheckedWhenObstructed(st: DirState, files: set<string>, ds: seq<string>)
    requires ParentsFirst(ds) && !Clear(ds, st.existing, files)
    ensures EnsureAllChecked(st, files, ds).Blocked?
    decreases |ds|
  {
    var i :| 0 <= i < |ds| && ds[i] !in st.existing && Obstructed(ds[i], files);
    if !(ds[0] !in st.existing && Obstructed(ds[0], files)) {
      var st' := Ensure(st, ds[0]);
      assert i > 0;
      assert ds[i] !in st'.existing;
      assert ds[1..][i - 1] == ds[i];
      ParentsFirstTail(ds);
      CheckedWhenObstructed(st', files, ds[1..]);
    }
  }

  /** `createDirectories()` beside the regular files `files`, which are among the
      `existing` paths: it stops at the first obstructed directory, and otherwise
      it is `CreateDirectories`. */
  function CreateDirectoriesChecked(existing: set<string>, files: set<string>): (r: Made)
    ensures r.Made? <==> Clear(OUTPUT_DIRS, existing, files)
    ensures r.Made? ==> r.st == CreateDirectories(existing)
    ensures r.Blocked? ==> r.dir in OUTPUT_DIRS && r.dir !in existing && Obstructed(r.dir, files)
    ensures existing <= r.st.existing
  {
    var st := DirState(existing, []);
    OutputDirsParentsFirst();
    if Clear(OUTPUT_DIRS, existing, files) then
      CheckedWhenClear(st, files, OUTPUT_DIRS);
      EnsureAllChecked(st, files, OUTPUT_DIRS)
    else
      CheckedWhenObstructed(st, files, OUTPUT_DIRS);
      EnsureAllChecked(st, files, OUTPUT_DIRS)
  }

  /** Creating the directories a second time changes nothing and reports nothing. */
  lemma CreateDirectoriesIdempotent(existing: set<string>)
    ensures CreateDirectories(CreateDirectories(existing).existing).existing == CreateDirectories(existing).existing
    ensures CreateDirectories(CreateDirectories(existing).existing).created == []
  {
    var once := CreateDirectories(existing).existing;
    EnsureAllPresent(DirState(once, []), OUTPUT_DIRS);
  }
}
