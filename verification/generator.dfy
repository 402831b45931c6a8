/** The enumeration in `main`: walk the manifest in declaration order, pair each
    entry with its template, and build its destination path. */
module Generator {
  import opened Text
  import opened Palette
  import opened Templates
  import opened Manifest
  import opened Directories
  import opened Documents

  /** What a written file holds, abstractly. An SVG file is named by the template
      call that renders it; `Drawing` and `ScreenDrawing` give its geometry. */
  datatype Content =
    | IconSvg(palette: Colors, size: int)
    | ScreenSvg(palette: Colors, width: int, height: int)
    | ListingJson(listing: Listing)
    | PrivacyPolicy(date: string)
    | TermsOfService(date: string)

  /** The geometry of an icon file: `generateSVGIcon(size)` with the file's palette. */
  function IconDrawing(c: Content): IconGeometry
    requires c.IconSvg?
  {
    IconTemplate(c.palette, c.size)
  }

  /** The geometry of a launch-screen file: `generateLaunchScreenSVG(width, height)`. */
  function ScreenDrawing(c: Content): LaunchGeometry
    requires c.ScreenSvg?
  {
    LaunchTemplate(c.palette, c.width, c.height)
  }

  /** One file to write: its directory, its base name, its content. */
  datatype Artifact = Artifact(dir: string, file: string, content: Content) {
    function Path(): string {
      Join(dir, file)
    }
  }

  const IOS_ICONS_DIR: string := "mobile-assets/ios/icons"
  const IOS_SCREENS_DIR: string := "mobile-assets/ios/launch-screens"
  const ANDROID_ICONS_DIR: string := "mobile-assets/android/icons"
  const ANDROID_DIR: string := "mobile-assets/android"
  const PWA_DIR: string := "public/icons"
  const DOCS_DIR: string := "mobile-assets"

  const VECTOR_EXT: string := ".svg"
  const PWA_PREFIX: string := "icon-"

  /** `name.replace('.png', '.svg')`: a single-extension raster name becomes its
      stem followed by ".svg"; a name that never mentions ".png" is kept as it is. */
  function VectorName(name: string): (r: string)
    ensures SingleExtension(name, RASTER_EXT) ==> r == Stem(name, RASTER_EXT) + VECTOR_EXT
    ensures (forall j: nat :: !OccursAt(name, RASTER_EXT, j)) ==> r == name
  {
    if SingleExtension(name, RASTER_EXT) then
      ReplaceExtension(name, RASTER_EXT, VECTOR_EXT);
      ReplaceFirst(name, RASTER_EXT, VECTOR_EXT)
    else
      ReplaceFirst(name, RASTER_EXT, VECTOR_EXT)
  }

  /** Only the first ".png" is rewritten: in `stem.png<tail>` the tail is kept
      as it is, even when it holds ".png" again (`a.png.png` becomes `a.svg.png`). */
  lemma VectorNameKeepsTail(stem: string, tail: string)
    requires '.' !in stem
    ensures VectorName(stem + RASTER_EXT + tail) == stem + VECTOR_EXT + tail
  {
    ReplaceAfterStem(stem, RASTER_EXT, tail, VECTOR_EXT);
  }

  /** Distinct single-extension names stay distinct, gain no '/' and keep an
      extension. */
  lemma VectorNameInjective(a: string, b: string)
    requires SingleExtension(a, RASTER_EXT) && SingleExtension(b, RASTER_EXT)
    ensures '/' !in VectorName(a) && '.' in VectorName(a)
    ensures VectorName(a) == VectorName(b) ==> a == b
  {
    assert VectorName(a)[|Stem(a, RASTER_EXT)|] == '.';
    var sa, sb := Stem(a, RASTER_EXT), Stem(b, RASTER_EXT);
    StemSplits(a, RASTER_EXT);
    StemSplits(b, RASTER_EXT);
    if VectorName(a) == VectorName(b) {
      assert sa == (sa + VECTOR_EXT)[..|sa|];
      assert sb == (sb + VECTOR_EXT)[..|sb|];
    }
  }

  /** The artifact for one icon entry: `dir/stem.svg`, drawn by the icon template
      at the entry's size. */
  function IconEntry(dir: string, icon: IconSpec, p: Colors): (r: Artifact)
    ensures r.dir == dir && r.content == IconSvg(p, icon.size)
    ensures SingleExtension(icon.name, RASTER_EXT) ==>
              r.Path() == dir + "/" + Stem(icon.name, RASTER_EXT) + VECTOR_EXT
  {
    Artifact(dir, VectorName(icon.name), IconSvg(p, icon.size))
  }

  /** The artifact for one launch-screen entry: `dir/stem.svg`, drawn by the launch
      template at the entry's width and height. */
  function ScreenEntry(dir: string, screen: ScreenSpec, p: Colors): (r: Artifact)
    ensures r.dir == dir && r.content == ScreenSvg(p, screen.width, screen.height)
    ensures SingleExtension(screen.name, RASTER_EXT) ==>
              r.Path() == dir + "/" + Stem(screen.name, RASTER_EXT) + VECTOR_EXT
  {
    Artifact(dir, VectorName(screen.name), ScreenSvg(p, screen.width, screen.height))
  }

  /** The artifact for one web-app size: an icon of that size in `public/icons`. */
  function PwaEntry(size: nat, p: Colors): (r: Artifact)
    ensures r.dir == PWA_DIR && r.content == IconSvg(p, size)
    ensures r.file == PwaName(size) && r.Path() == PWA_DIR + "/" + PwaName(size)
    ensures '/' !in r.file && '.' in r.file
  {
    PwaNameInjective(size, size);
    Artifact(PWA_DIR, PwaName(size), IconSvg(p, size))
  }

  /** The `forEach` over an icon table: one icon artifact per entry, in order. */
  function IconArtifacts(dir: string, icons: seq<IconSpec>, p: Colors): (r: seq<Artifact>)
    ensures |r| == |icons|
    ensures forall i :: 0 <= i < |icons| ==>
              r[i] == IconEntry(dir, icons[i], p)
    decreases |icons|
  {
    if |icons| == 0 then []
    else [IconEntry(dir, icons[0], p)] + IconArtifacts(dir, icons[1..], p)
  }

  /** The `forEach` over the launch screens: one screen artifact per entry, in order. */
  function ScreenArtifacts(dir: string, screens: seq<ScreenSpec>, p: Colors): (r: seq<Artifact>)
    ensures |r| == |screens|
    ensures forall i :: 0 <= i < |screens| ==>
              r[i] == ScreenEntry(dir, screens[i], p)
    decreases |screens|
  {
    if |screens| == 0 then []
    else [ScreenEntry(dir, screens[0], p)] + ScreenArtifacts(dir, screens[1..], p)
  }

  /** `icon-${size}.svg`. */
  function PwaName(size: nat): (r: string)
    ensures |r| == |PWA_PREFIX| + |Decimal(size)| + |VECTOR_EXT|
    ensures r[..|PWA_PREFIX|] == PWA_PREFIX && r[|r| - |VECTOR_EXT|..] == VECTOR_EXT
    ensures r[|PWA_PREFIX|..|r| - |VECTOR_EXT|] == Decimal(size)
  {
    PWA_PREFIX + Decimal(size) + VECTOR_EXT
  }

  /** The `forEach` over the web-app sizes: `public/icons/icon-{size}.svg`. */
  function PwaArtifacts(sizes: seq<nat>, p: Colors): (r: seq<Artifact>)
    ensures |r| == |sizes|
    ensures forall i :: 0 <= i < |sizes| ==> r[i] == PwaEntry(sizes[i], p)
    decreases |sizes|
  {
    if |sizes| == 0 then []
    else [PwaEntry(sizes[0], p)] + PwaArtifacts(sizes[1..], p)
  }

  /** Five groups one after another, each position located in its group. */
  function Concat5<T>(a: seq<T>, b: seq<T>, c: seq<T>, d: seq<T>, e: seq<T>): (r: seq<T>)
    ensures |r| == |a| + |b| + |c| + |d| + |e|
    ensures forall i :: 0 <= i < |a| ==> r[i] == a[i]
    ensures forall i :: 0 <= i < |b| ==> r[|a| + i] == b[i]
    ensures forall i :: 0 <= i < |c| ==> r[|a| + |b| + i] == c[i]
    ensures forall i :: 0 <= i < |d| ==> r[|a| + |b| + |c| + i] == d[i]
    ensures forall i :: 0 <= i < |e| ==> r[|a| + |b| + |c| + |d| + i] == e[i]
  {
    a + b + c + d + e
  }

  /** Every asset `main` writes, in the order it writes them: iOS icons, iOS launch
      screens, Android icons, the feature graphic, the web-app icons. */
  function Resolve(a: AppAssets, pwa: seq<nat>, p: Colors): (r: seq<Artifact>)
    ensures |r| == |a.iosIcons| + |a.iosLaunchScreens| + |a.androidIcons| + 1 + |pwa|
  {
    Concat5(IconArtifacts(IOS_ICONS_DIR, a.iosIcons, p),
            ScreenArtifacts(IOS_SCREENS_DIR, a.iosLaunchScreens, p),
            IconArtifacts(ANDROID_ICONS_DIR, a.androidIcons, p),
            [ScreenEntry(ANDROID_DIR, a.featureGraphic, p)],
            PwaArtifacts(pwa, p))
  }

  /** Where each group of entries starts in the resolved sequence. */
  datatype Offsets = Offsets(screens: nat, androidIcons: nat, feature: nat, pwa: nat)

  function OffsetsOf(a: AppAssets): Offsets {
    var s := |a.iosIcons|;
    var ai := s + |a.iosLaunchScreens|;
    var f := ai + |a.androidIcons|;
    Offsets(s, ai, f, f + 1)
  }

  /** Resolution is the five groups one after another. */
  lemma ResolveGroups(a: AppAssets, pwa: seq<nat>, p: Colors)
    ensures Resolve(a, pwa, p) ==
      IconArtifacts(IOS_ICONS_DIR, a.iosIcons, p) + ScreenArtifacts(IOS_SCREENS_DIR, a.iosLaunchScreens, p)
      + IconArtifacts(ANDROID_ICONS_DIR, a.androidIcons, p) + [ScreenEntry(ANDROID_DIR, a.featureGraphic, p)]
      + PwaArtifacts(pwa, p)
  {
  }

  /** The web-app icon of the `i`-th size, after the three tables and the feature graphic. */
  lemma ResolveWebIcon(a: AppAssets, pwa: seq<nat>, p: Colors, i: nat)
    requires i < |pwa|
    ensures OffsetsOf(a).pwa + i < |Resolve(a, pwa, p)|
    ensures Resolve(a, pwa, p)[OffsetsOf(a).pwa + i] == PwaEntry(pwa[i], p)
  {
  }

  /** One artifact per manifest entry, in declaration order, each in its group's
      directory, named after the entry with ".png" rewritten, and drawn by the
      template that matches its kind at the entry's size. */
  lemma ResolveEnumerates(a: AppAssets, pwa: seq<nat>, p: Colors)
    ensures var r, o := Resolve(a, pwa, p), OffsetsOf(a);
      && |r| == o.pwa + |pwa|
      && (forall i :: 0 <= i < |a.iosIcons| ==> r[i] == IconEntry(IOS_ICONS_DIR, a.iosIcons[i], p))
      && (forall i :: 0 <= i < |a.iosLaunchScreens| ==>
            r[o.screens + i] == ScreenEntry(IOS_SCREENS_DIR, a.iosLaunchScreens[i], p))
      && (forall i :: 0 <= i < |a.androidIcons| ==>
            r[o.androidIcons + i] == IconEntry(ANDROID_ICONS_DIR, a.androidIcons[i], p))
      && r[o.feature] == ScreenEntry(ANDROID_DIR, a.featureGraphic, p)
      && (forall i :: 0 <= i < |pwa| ==> r[o.pwa + i] == PwaEntry(pwa[i], p))
  {
  }

  /** No two artifacts share a destination path. */
  predicate DistinctPaths(r: seq<Artifact>) {
    forall i, j :: 0 <= i < j < |r| ==> r[i].Path() != r[j].Path()
  }

  predicate DistinctFiles(r: seq<Artifact>) {
    forall i, j :: 0 <= i < j < |r| ==> r[i].file != r[j].file
  }

  /** Every artifact goes to one of `dirs`, under a plain file name that has an
      extension. */
  predicate Placed(r: seq<Artifact>, dirs: set<string>) {
    forall i :: 0 <= i < |r| ==> r[i].dir in dirs && '/' !in r[i].file && '.' in r[i].file
  }

  /** Within one directory, distinct file names give distinct paths. */
  lemma GroupDistinct(r: seq<Artifact>, dir: string)
    requires Placed(r, {dir}) && DistinctFiles(r)
    ensures DistinctPaths(r)
  {
    forall i, j | 0 <= i < j < |r|
      ensures r[i].Path() != r[j].Path()
    {
      if r[i].Path() == r[j].Path() {
        JoinInjective(r[i].dir, r[i].file, r[j].dir, r[j].file);
        assert false;
      }
    }
  }

  /** Groups written to disjoint directory sets never collide with each other. */
  lemma AppendDistinct(x: seq<Artifact>, dx: set<string>, y: seq<Artifact>, dy: set<string>)
    requires Placed(x, dx) && Placed(y, dy) && dx !! dy
    requires DistinctPaths(x) && DistinctPaths(y)
    ensures Placed(x + y, dx + dy) && DistinctPaths(x + y)
  {
    var r := x + y;
    forall i, j | 0 <= i < j < |r|
      ensures r[i].Path() != r[j].Path()
    {
      if i < |x| <= j && r[i].Path() == r[j].Path() {
        JoinInjective(r[i].dir, r[i].file, r[j].dir, r[j].file);
        assert false;
      }
    }
  }

  lemma {:induction false} IconGroup(dir: string, icons: seq<IconSpec>, p: Colors)
    requires forall i :: 0 <= i < |icons| ==> SingleExtension(icons[i].name, RASTER_EXT)
    requires forall i, j :: 0 <= i < j < |icons| ==> icons[i].name != icons[j].name
    ensures Placed(IconArtifacts(dir, icons, p), {dir}) && DistinctPaths(IconArtifacts(dir, icons, p))
  {
    var r := IconArtifacts(dir, icons, p);
    forall i, j | 0 <= i < j < |r|
      ensures '/' !in r[i].file && r[i].file != r[j].file
    {
      VectorNameInjective(icons[i].name, icons[j].name);
    }
    forall i | 0 <= i < |r|
      ensures '/' !in r[i].file && '.' in r[i].file
    {
      VectorNameInjective(icons[i].name, icons[i].name);
    }
    GroupDistinct(r, dir);
  }

  lemma {:induction false} ScreenGroup(dir: string, screens: seq<ScreenSpec>, p: Colors)
    requires forall i :: 0 <= i < |screens| ==> SingleExtension(screens[i].name, RASTER_EXT)
    requires DistinctScreenNames(screens)
    ensures Placed(ScreenArtifacts(dir, screens, p), {dir}) && DistinctPaths(ScreenArtifacts(dir, screens, p))
  {
    var r := ScreenArtifacts(dir, screens, p);
    forall i, j | 0 <= i < j < |r|
      ensures r[i].file != r[j].file
    {
      VectorNameInjective(screens[i].name, screens[j].name);
    }
    forall i | 0 <= i < |r|
      ensures '/' !in r[i].file && '.' in r[i].file
    {
      VectorNameInjective(screens[i].name, screens[i].name);
    }
    GroupDistinct(r, dir);
  }

  /** A web-app icon name is plain, and determines its size. */
  lemma PwaNameInjective(a: nat, b: nat)
    ensures '/' !in PwaName(a) && '.' in PwaName(a)
    ensures PwaName(a) == PwaName(b) ==> a == b
  {
    var da, db := Decimal(a), Decimal(b);
    assert PwaName(a) == PWA_PREFIX + da + VECTOR_EXT;
    assert forall k :: 0 <= k < |da| ==> da[k] != '/';
    assert PwaName(a)[|PWA_PREFIX| + |da|] == '.';
    if PwaName(a) == PwaName(b) {
      assert |da| == |db|;
      assert da == PwaName(a)[|PWA_PREFIX|..|PWA_PREFIX| + |da|];
      assert db == PwaName(b)[|PWA_PREFIX|..|PWA_PREFIX| + |db|];
      DecimalInjective(a, b);
    }
  }

  lemma {:induction false} PwaGroup(sizes: seq<nat>, p: Colors)
    requires forall i, j :: 0 <= i < j < |sizes| ==> sizes[i] != sizes[j]
    ensures Placed(PwaArtifacts(sizes, p), {PWA_DIR}) && DistinctPaths(PwaArtifacts(sizes, p))
  {
    var r := PwaArtifacts(sizes, p);
    forall i, j | 0 <= i < j < |r|
      ensures r[i].file != r[j].file
    {
      PwaNameInjective(sizes[i], sizes[j]);
    }
    forall i | 0 <= i < |r|
      ensures '/' !in r[i].file && '.' in r[i].file
    {
      PwaNameInjective(sizes[i], sizes[i]);
    }
    GroupDistinct(r, PWA_DIR);
  }

  /** The five asset directories. */
  const ASSET_DIRS: set<string> := {IOS_ICONS_DIR, IOS_SCREENS_DIR, ANDROID_ICONS_DIR, ANDROID_DIR, PWA_DIR}

  /** The output directories are six different paths. */
  lemma OutputDirsDistinct()
    ensures var ds := [IOS_ICONS_DIR, IOS_SCREENS_DIR, ANDROID_ICONS_DIR, ANDROID_DIR, PWA_DIR, DOCS_DIR];
      forall i, j :: 0 <= i < j < |ds| ==> ds[i] != ds[j]
  {
  }

  /** Five groups, each collision-free inside its own directory, combine into a
      collision-free whole. */
  lemma CombineGroups(g1: seq<Artifact>, g2: seq<Artifact>, g3: seq<Artifact>, g4: seq<Artifact>, g5: seq<Artifact>)
    requires Placed(g1, {IOS_ICONS_DIR}) && DistinctPaths(g1)
    requires Placed(g2, {IOS_SCREENS_DIR}) && DistinctPaths(g2)
    requires Placed(g3, {ANDROID_ICONS_DIR}) && DistinctPaths(g3)
    requires Placed(g4, {ANDROID_DIR}) && DistinctPaths(g4)
    requires Placed(g5, {PWA_DIR}) && DistinctPaths(g5)
    ensures Placed(g1 + g2 + g3 + g4 + g5, ASSET_DIRS) && DistinctPaths(g1 + g2 + g3 + g4 + g5)
  {
    OutputDirsDistinct();
    var d1, d2, d3, d4, d5 := {IOS_ICONS_DIR}, {IOS_SCREENS_DIR}, {ANDROID_ICONS_DIR}, {ANDROID_DIR}, {PWA_DIR};
    AppendDistinct(g1, d1, g2, d2);
    AppendDistinct(g1 + g2, d1 + d2, g3, d3);
    AppendDistinct(g1 + g2 + g3, d1 + d2 + d3, g4, d4);
    AppendDistinct(g1 + g2 + g3 + g4, d1 + d2 + d3 + d4, g5, d5);
    assert d1 + d2 + d3 + d4 + d5 == ASSET_DIRS;
  }

  /** A well-formed manifest resolves to pairwise distinct paths, all inside the
      five asset directories: no artifact overwrites another. */
  lemma ResolvePathsDistinct(a: AppAssets, pwa: seq<nat>, p: Colors)
    requires WellFormed(a, pwa)
    ensures Placed(Resolve(a, pwa, p), ASSET_DIRS)
    ensures DistinctPaths(Resolve(a, pwa, p))
  {
    var ios := IconArtifacts(IOS_ICONS_DIR, a.iosIcons, p);
    var screens := ScreenArtifacts(IOS_SCREENS_DIR, a.iosLaunchScreens, p);
    var android := IconArtifacts(ANDROID_ICONS_DIR, a.androidIcons, p);
    var feature := [ScreenEntry(ANDROID_DIR, a.featureGraphic, p)];
    var web := PwaArtifacts(pwa, p);
    IconGroup(IOS_ICONS_DIR, a.iosIcons, p);
    ScreenGroup(IOS_SCREENS_DIR, a.iosLaunchScreens, p);
    IconGroup(ANDROID_ICONS_DIR, a.androidIcons, p);
    VectorNameInjective(a.featureGraphic.name, a.featureGraphic.name);
    assert Placed(feature, {ANDROID_DIR}) && DistinctPaths(feature);
    PwaGroup(pwa, p);
    CombineGroups(ios, screens, android, feature, web);
    assert Resolve(a, pwa, p) == ios + screens + android + feature + web;
  }

  /** A file whose drawing is proper: an icon with a disc of positive radius, or a
      launch screen whose circles and text anchors lie inside its canvas. Other
      files qualify trivially. */
  predicate Proper(c: Content) {
    && (c.IconSvg? ==> IconDrawing(c).disc.r > 0.0)
    && (c.ScreenSvg? ==> LaunchFits(ScreenDrawing(c)))
  }

  /** An icon is proper exactly above 4 pixels, a launch screen exactly from 160 by 360. */
  lemma ProperSizes(c: Content)
    ensures c.IconSvg? ==> (Proper(c) <==> c.size > 4)
    ensures c.ScreenSvg? ==> (Proper(c) <==> c.width >= 160 && c.height >= 360)
  {
    if c.IconSvg? {
      IconDiscDegenerate(c.palette, c.size);
    } else if c.ScreenSvg? {
      LaunchFitsExactly(c.palette, c.width, c.height);
    }
  }

  /** Every manifest entry is large enough for its template. */
  predicate Drawable(a: AppAssets, pwa: seq<nat>) {
    && (forall i :: 0 <= i < |a.iosIcons| ==> a.iosIcons[i].size > 4)
    && (forall i :: 0 <= i < |a.iosLaunchScreens| ==>
          a.iosLaunchScreens[i].width >= 160 && a.iosLaunchScreens[i].height >= 360)
    && (forall i :: 0 <= i < |a.androidIcons| ==> a.androidIcons[i].size > 4)
    && a.featureGraphic.width >= 160 && a.featureGraphic.height >= 360
    && (forall i :: 0 <= i < |pwa| ==> pwa[i] > 4)
  }

  /** All drawings in a sequence are proper. */
  predicate AllProper(r: seq<Artifact>) {
    forall i :: 0 <= i < |r| ==> Proper(r[i].content)
  }

  lemma AppendProper(x: seq<Artifact>, y: seq<Artifact>)
    requires AllProper(x) && AllProper(y)
    ensures AllProper(x + y)
  {
    forall i | 0 <= i < |x + y|
      ensures Proper((x + y)[i].content)
    {
      if i >= |x| {
        assert (x + y)[i] == y[i - |x|];
      }
    }
  }

  /** A manifest whose entries are all large enough draws only proper files. */
  lemma ResolveProper(a: AppAssets, pwa: seq<nat>, p: Colors)
    requires Drawable(a, pwa)
    ensures AllProper(Resolve(a, pwa, p))
  {
    var ios := IconArtifacts(IOS_ICONS_DIR, a.iosIcons, p);
    var screens := ScreenArtifacts(IOS_SCREENS_DIR, a.iosLaunchScreens, p);
    var android := IconArtifacts(ANDROID_ICONS_DIR, a.androidIcons, p);
    var feature := [ScreenEntry(ANDROID_DIR, a.featureGraphic, p)];
    var web := PwaArtifacts(pwa, p);
    forall i | 0 <= i < |ios| ensures Proper(ios[i].content) { ProperSizes(ios[i].content); }
    forall i | 0 <= i < |screens| ensures Proper(screens[i].content) { ProperSizes(screens[i].content); }
    forall i | 0 <= i < |android| ensures Proper(android[i].content) { ProperSizes(android[i].content); }
    ProperSizes(feature[0].content);
    forall i | 0 <= i < |web| ensures Proper(web[i].content) { ProperSizes(web[i].content); }
    AppendProper(ios, screens);
    AppendProper(ios + screens, android);
    AppendProper(ios + screens + android, feature);
    AppendProper(ios + screens + android + feature, web);
    ResolveGroups(a, pwa, p);
  }

  /** The shipped manifest is drawable: every icon is larger than 4 pixels and every
      screen, the feature graphic included, at least 160 wide and 360 high. */
  lemma ManifestDrawable()
    ensures Drawable(APP_ASSETS, PWA_SIZES)
  {
  }

  /** The web-app icons are `icon-192.svg` and `icon-512.svg`. */
  lemma PwaNames()
    ensures PwaName(192) == "icon-192.svg" && PwaName(512) == "icon-512.svg"
  {
    assert Decimal(192) == "192" by {
      assert Decimal(19) == "19" by { assert Decimal(1) == "1"; }
    }
    assert Decimal(512) == "512" by {
      assert Decimal(51) == "51" by { assert Decimal(5) == "5"; }
    }
  }

  /** The artifact of an entry named `stem.png` lands at `dir/stem.svg`. */
  lemma VectorPath(dir: string, name: string, stem: string)
    requires SplitsAs(name, stem)
    ensures Join(dir, VectorName(name)) == dir + "/" + stem + VECTOR_EXT
  {
    SplitsSingleExtension(name, stem);
    assert Stem(name, RASTER_EXT) == stem;
  }

  /** The feature graphic follows the three tables and lands in the Android
      directory itself, not among the Android icons. */
  lemma FeatureGraphicPath(a: AppAssets, pwa: seq<nat>, p: Colors, stem: string)
    requires SplitsAs(a.featureGraphic.name, stem)
    ensures OffsetsOf(a).feature == |a.iosIcons| + |a.iosLaunchScreens| + |a.androidIcons|
    ensures Resolve(a, pwa, p)[OffsetsOf(a).feature].Path() == ANDROID_DIR + "/" + stem + VECTOR_EXT
  {
    ResolveEnumerates(a, pwa, p);
    VectorPath(ANDROID_DIR, a.featureGraphic.name, stem);
  }

  /** In the shipped manifest the feature graphic is the 25th artifact, named
      `feature-graphic.png`. */
  lemma ShippedFeatureGraphic()
    ensures OffsetsOf(APP_ASSETS).feature == 24
    ensures SplitsAs(APP_ASSETS.featureGraphic.name, "feature-graphic")
  {
    ManifestShape();
  }
}
