/** The declarative asset tables (`APP_ASSETS`) and the separate PWA size list. */
module Manifest {
  import opened Text

  /** One square icon requirement: edge length, raster file name, label for the log. */
  datatype IconSpec = IconSpec(size: nat, name: string, desc: string)

  /** One launch-screen or feature-graphic requirement. */
  datatype ScreenSpec = ScreenSpec(width: int, height: int, name: string)

  datatype AppAssets = AppAssets(
    iosIcons: seq<IconSpec>,
    iosLaunchScreens: seq<ScreenSpec>,
    androidIcons: seq<IconSpec>,
    featureGraphic: ScreenSpec)

  const APP_ASSETS: AppAssets := AppAssets(
    [ IconSpec(1024, "AppIcon-1024.png", "App Store"),
      IconSpec(180, "AppIcon-180.png", "iPhone"),
      IconSpec(167, "AppIcon-167.png", "iPad Pro"),
      IconSpec(152, "AppIcon-152.png", "iPad"),
      IconSpec(120, "AppIcon-120.png", "iPhone"),
      IconSpec(87, "AppIcon-87.png", "iPhone"),
      IconSpec(80, "AppIcon-80.png", "iPad"),
      IconSpec(76, "AppIcon-76.png", "iPad"),
      IconSpec(60, "AppIcon-60.png", "iPhone"),
      IconSpec(58, "AppIcon-58.png", "iPhone"),
      IconSpec(40, "AppIcon-40.png", "iPad"),
      IconSpec(29, "AppIcon-29.png", "iPhone/iPad"),
      IconSpec(20, "AppIcon-20.png", "iPad") ],
    [ ScreenSpec(1290, 2796, "LaunchScreen-iPhone14ProMax.png"),
      ScreenSpec(1179, 2556, "LaunchScreen-iPhone14Pro.png"),
      ScreenSpec(1170, 2532, "LaunchScreen-iPhone13.png"),
      ScreenSpec(1125, 2436, "LaunchScreen-iPhone12mini.png"),
      ScreenSpec(828, 1792, "LaunchScreen-iPhone11.png") ],
    [ IconSpec(512, "ic_launcher-512.png", "Play Store"),
      IconSpec(192, "ic_launcher-192.png", "xxxhdpi"),
      IconSpec(144, "ic_launcher-144.png", "xxhdpi"),
      IconSpec(96, "ic_launcher-96.png", "xhdpi"),
      IconSpec(72, "ic_launcher-72.png", "hdpi"),
      IconSpec(48, "ic_launcher-48.png", "mdpi") ],
    ScreenSpec(1024, 500, "feature-graphic.png"))

  /** Edge lengths of the web-app icons, kept apart from the store tables. */
  const PWA_SIZES: seq<nat> := [192, 512]

  const RASTER_EXT: string := ".png"

  predicate DistinctScreenNames(screens: seq<ScreenSpec>) {
    forall i, j :: 0 <= i < j < |screens| ==> screens[i].name != screens[j].name
  }

  /** Every name carries a single ".png" extension and no directory part. */
  predicate RasterNames(a: AppAssets) {
    && (forall i :: 0 <= i < |a.iosIcons| ==> SingleExtension(a.iosIcons[i].name, RASTER_EXT))
    && (forall i :: 0 <= i < |a.iosLaunchScreens| ==> SingleExtension(a.iosLaunchScreens[i].name, RASTER_EXT))
    && (forall i :: 0 <= i < |a.androidIcons| ==> SingleExtension(a.androidIcons[i].name, RASTER_EXT))
    && SingleExtension(a.featureGraphic.name, RASTER_EXT)
  }

  /** What the resolution step needs of a manifest for its outputs not to collide:
      single-extension names, and no two entries of one table with the same name. */
  predicate WellFormed(a: AppAssets, pwa: seq<nat>) {
    && RasterNames(a)
    && (forall i, j :: 0 <= i < j < |a.iosIcons| ==> a.iosIcons[i].name != a.iosIcons[j].name)
    && DistinctScreenNames(a.iosLaunchScreens)
    && (forall i, j :: 0 <= i < j < |a.androidIcons| ==> a.androidIcons[i].name != a.androidIcons[j].name)
    && (forall i, j :: 0 <= i < j < |pwa| ==> pwa[i] != pwa[j])
  }

  /** `name` is `stem` followed by ".png", with neither '.' nor '/' in the stem. */
  predicate SplitsAs(name: string, stem: string) {
    name == stem + RASTER_EXT && '.' !in stem && '/' !in stem
  }

  lemma SplitsSingleExtension(name: string, stem: string)
    requires SplitsAs(name, stem)
    ensures SingleExtension(name, RASTER_EXT)
  {
    assert name[..|stem|] == stem;
    assert name[|stem|..] == RASTER_EXT;
    assert '/' !in RASTER_EXT;
  }

  /** Each name of a table, split at its extension. */
  lemma TableSingleExtension(names: seq<string>, stems: seq<string>)
    requires |names| == |stems|
    requires forall i :: 0 <= i < |names| ==> SplitsAs(names[i], stems[i])
    ensures forall i :: 0 <= i < |names| ==> SingleExtension(names[i], RASTER_EXT)
  {
    forall i | 0 <= i < |names|
      ensures SingleExtension(names[i], RASTER_EXT)
    {
      SplitsSingleExtension(names[i], stems[i]);
    }
  }

  function IconNames(icons: seq<IconSpec>): (names: seq<string>)
    ensures |names| == |icons| && forall i :: 0 <= i < |icons| ==> names[i] == icons[i].name
  {
    seq(|icons|, i requires 0 <= i < |icons| => icons[i].name)
  }

  function ScreenNames(screens: seq<ScreenSpec>): (names: seq<string>)
    ensures |names| == |screens| && forall i :: 0 <= i < |screens| ==> names[i] == screens[i].name
  {
    seq(|screens|, i requires 0 <= i < |screens| => screens[i].name)
  }

  lemma IosIconNames()
    ensures forall i :: 0 <= i < |APP_ASSETS.iosIcons| ==> SingleExtension(APP_ASSETS.iosIcons[i].name, RASTER_EXT)
  {
    var stems := ["AppIcon-1024", "AppIcon-180", "AppIcon-167", "AppIcon-152", "AppIcon-120", "AppIcon-87",
                  "AppIcon-80", "AppIcon-76", "AppIcon-60", "AppIcon-58", "AppIcon-40", "AppIcon-29", "AppIcon-20"];
    TableSingleExtension(IconNames(APP_ASSETS.iosIcons), stems);
  }

  lemma AndroidIconNames()
    ensures forall i :: 0 <= i < |APP_ASSETS.androidIcons| ==> SingleExtension(APP_ASSETS.androidIcons[i].name, RASTER_EXT)
  {
    var stems := ["ic_launcher-512", "ic_launcher-192", "ic_launcher-144", "ic_launcher-96", "ic_launcher-72",
                  "ic_launcher-48"];
    TableSingleExtension(IconNames(APP_ASSETS.androidIcons), stems);
  }

  lemma LaunchScreenNames()
    ensures forall i :: 0 <= i < |APP_ASSETS.iosLaunchScreens| ==> SingleExtension(APP_ASSETS.iosLaunchScreens[i].name, RASTER_EXT)
    ensures SingleExtension(APP_ASSETS.featureGraphic.name, RASTER_EXT)
  {
    var stems := ["LaunchScreen-iPhone14ProMax", "LaunchScreen-iPhone14Pro", "LaunchScreen-iPhone13",
                  "LaunchScreen-iPhone12mini", "LaunchScreen-iPhone11"];
    TableSingleExtension(ScreenNames(APP_ASSETS.iosLaunchScreens), stems);
    SplitsSingleExtension(APP_ASSETS.featureGraphic.name, "feature-graphic");
  }

  lemma IosIconNamesDistinct()
    ensures forall i, j :: 0 <= i < j < |APP_ASSETS.iosIcons| ==> APP_ASSETS.iosIcons[i].name != APP_ASSETS.iosIcons[j].name
  {
  }

  lemma AndroidIconNamesDistinct()
    ensures forall i, j :: 0 <= i < j < |APP_ASSETS.androidIcons| ==> APP_ASSETS.androidIcons[i].name != APP_ASSETS.androidIcons[j].name
  {
  }

  lemma LaunchScreenNamesDistinct()
    ensures DistinctScreenNames(APP_ASSETS.iosLaunchScreens)
  {
  }

  /** The manifest has 13 iOS icons, 5 iOS launch screens, 6 Android icons, one
      feature graphic and 2 web-app sizes, and is well formed. */
  lemma ManifestShape()
    ensures |APP_ASSETS.iosIcons| == 13 && |APP_ASSETS.iosLaunchScreens| == 5
    ensures |APP_ASSETS.androidIcons| == 6 && |PWA_SIZES| == 2
    ensures WellFormed(APP_ASSETS, PWA_SIZES)
  {
    IosIconNames();
    AndroidIconNames();
    LaunchScreenNames();
    IosIconNamesDistinct();
    AndroidIconNamesDistinct();
    LaunchScreenNamesDistinct();
  }
}
