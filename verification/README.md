# BeYou app-asset generator, modelled in Dafny

`generate-app-assets.js` is a one-shot build tool. It reads a fixed manifest of
store assets (`APP_ASSETS`): 13 iOS icons, 5 iOS launch screens, 6 Android icons
and one Android feature graphic. It also reads a separate list of web-app (PWA)
icon sizes, `[192, 512]`. It creates the output directory tree, then writes one
vector (SVG) file per manifest entry, followed by the store listing and two legal
documents.

This project models that generator as pure functions over immutable values:

- **Text** (`text.dfy`): `String.prototype.replace` with a string pattern, which
  rewrites only the leftmost occurrence. It also models the decimal rendering of
  `${size}` and how `${dir}/${file}` paths are joined.
- **Palette** (`palette.dfy`): `BRAND_COLORS`, passed explicitly to the templates.
- **Templates** (`templates.dfy`): `generateSVGIcon` and `generateLaunchScreenSVG`
  as geometry records over exact reals. The records hold the canvas, gradient,
  circles, text anchors, font sizes, heart transform and pulse animation.
- **Manifest** (`manifest.dfy`): the `APP_ASSETS` tables and the PWA sizes.
- **Directories** (`directories.dfy`): `createDirectories` as a fold over a set of
  existing paths. `mkdirSync(…, {recursive: true})` adds a path together with all
  of its '/'-prefixes.
- **Documents** (`documents.dfy`): the structured fields of the store listing.
- **Generator** (`generator.dfy`): resolution of the manifest into artifacts, in
  the order `main` writes them. Each artifact is a directory, a file name and an
  abstract content. An SVG content is the template call that renders it.
- **Execution** (`execution.dfy`): a run of `main` against a file-system value.
  The value is a set of directories plus a map from paths to regular files.
  `existsSync` reports both kinds of path. A recursive `mkdirSync` that meets a
  regular file on its way throws (`ENOTDIR`). `writeFileSync` throws when the
  parent of the path is not a directory (`ENOENT`, `ENOTDIR`) or when the path is
  a directory (`EISDIR`). The first throw stops the run and keeps everything done
  before it.

Each legal document reads the clock on its own (`generate-app-assets.js`, lines 224
and 303), so the run
takes two dates as parameters, one per document.

Two details of the code matter for the results below:

- **Feature-graphic path.** The feature graphic is written directly into
  `mobile-assets/android/` (`generate-app-assets.js`, line 429), not into a category directory such as
  `mobile-assets/android/icons/`.
- **Icon scaling.** The disc radius is `size/2 - 2` (`generate-app-assets.js`, line
  96). That is affine in
  the size, not proportional to it. `Templates.IconSelfSimilar` states the exact
  relation between two sizes.

## Model

| member | source | states |
|---|---|---|
| Text.IndexOf | generate-app-assets.js:401 | the index found is the leftmost occurrence of the pattern; none is found exactly when the pattern occurs nowhere |
| Text.ReplaceFirst | generate-app-assets.js:401 | a name without the pattern is returned unchanged; otherwise the leftmost occurrence alone is replaced and the text before and after it is kept |
| Text.ReplaceAfterStem | generate-app-assets.js:409 | for `stem + ".png" + tail` with no '.' in the stem, the replacement rewrites the extension right after the stem and keeps the whole tail, a second ".png" included |
| Text.ReplaceExtension | generate-app-assets.js:418 | a name with exactly one extension becomes its stem followed by the new extension |
| Text.StemSplits | generate-app-assets.js:401 | a single-extension name splits into its stem plus the extension, and the stem contains no '/' |
| Text.Decimal | generate-app-assets.js:438 | `${size}` prints at least one digit, only digits, and no leading zero |
| Text.DecimalRoundTrip | generate-app-assets.js:438 | reading back the printed digits gives the number again |
| Text.DecimalInjective | generate-app-assets.js:436-438 | different sizes print differently |
| Text.Join | generate-app-assets.js:401 | `${dir}/${file}` puts a '/' right after the directory, and its length is the sum of the parts plus one |
| Text.Parent | generate-app-assets.js:402 | the directory `writeFileSync` needs for a path: the text before its last '/', or nothing when the path has no '/' |
| Text.ParentOfJoin | generate-app-assets.js:401-402 | for a file name without '/', the parent of `${dir}/${file}` is `dir` |
| Text.JoinInjective | generate-app-assets.js:401 | when the file names contain no '/', equal joined paths have equal directories and equal file names |
| Templates.PrideGradient | generate-app-assets.js:88-92 | three stops at 0%, 50% and 100% in primary, secondary and accent, all opaque, running diagonally from (0%,0%) to (100%,100%) |
| Templates.IconTemplate | generate-app-assets.js:84-113 | the canvas and viewBox are size by size; the disc is centred with a 2-unit margin on each side and painted with the gradient; the caption sits below the centre by an eighth of the size, with a font one sixth of the size; the heart sits above the centre by one font size, scaled by size/200 |
| Templates.IconSelfSimilar | generate-app-assets.js:96-110 | the icon of size b is the icon of size a scaled by b/a, except that the disc keeps its absolute 2-unit margin |
| Templates.IconDiscDegenerate | generate-app-assets.js:96 | any size is accepted; the radius is positive exactly when the size exceeds 4, and the disc is a circle inside the canvas exactly when the size is at least 4 |
| Templates.IconStacking | generate-app-assets.js:99-107 | the heart is above the centre and the caption below it exactly when the size is positive |
| Templates.LaunchTemplate | generate-app-assets.js:116-163 | the canvas and background are exactly width by height; halo and logo are concentric at (width/2, height/2 - 100) with radii 80 and 60; every element is horizontally centred; the mark lies inside the logo; the title, tagline and indicator are stacked below the halo; the indicator pulses 0.8, 0.3, 0.8 every 1.5 s forever and starts at its first keyframe |
| Templates.LaunchOffsetsFixed | generate-app-assets.js:131-159 | the vertical offsets from the middle are -100, -100, -80, +50, +90 and +150 whatever the canvas size, strictly increasing from the mark down |
| Templates.LaunchFitsExactly | generate-app-assets.js:128-161 | the three circles and the text anchors lie inside the canvas exactly when the canvas is at least 160 wide and 360 high |
| Templates.SharedGradient | generate-app-assets.js:120-124 | both templates use the same three stops, under different gradient ids |
| Manifest.IosIconNames | generate-app-assets.js:14-28 | every iOS icon name has the single extension ".png" and no '/' |
| Manifest.LaunchScreenNames | generate-app-assets.js:29-50 | every launch-screen name and the feature-graphic name have the single extension ".png" and no '/' |
| Manifest.AndroidIconNames | generate-app-assets.js:38-45 | every Android icon name has the single extension ".png" and no '/' |
| Manifest.IosIconNamesDistinct | generate-app-assets.js:14-28 | no two iOS icons share a name |
| Manifest.LaunchScreenNamesDistinct | generate-app-assets.js:29-35 | no two launch screens share a name |
| Manifest.AndroidIconNamesDistinct | generate-app-assets.js:38-45 | no two Android icons share a name |
| Manifest.ManifestShape | generate-app-assets.js:12-52 | the tables hold 13, 5 and 6 entries, there are 2 web-app sizes, and the manifest is well formed |
| Directories.Ancestors | generate-app-assets.js:77 | a recursive mkdir brings the path itself into existence |
| Directories.AncestorIsPrefix | generate-app-assets.js:77 | everything a recursive mkdir creates is a prefix of the requested path |
| Directories.Ensure | generate-app-assets.js:76-78 | one iteration: the directory exists afterwards and nothing is removed; if it already existed nothing changes and nothing is reported, otherwise it is reported and only it and its ancestors are added |
| Directories.EnsureAll | generate-app-assets.js:75-80 | the loop never removes a path, keeps the earlier reports as they were, and reports at most one directory per listed entry |
| Directories.Missing | generate-app-assets.js:75-76 | a directory is reported exactly when it is listed and did not exist, and the report is no longer than the list |
| Directories.EnsureAllCovers | generate-app-assets.js:75-80 | the loop never removes a directory, and afterwards every listed directory exists |
| Directories.EnsureAllWithin | generate-app-assets.js:75-80 | everything the loop adds is a listed directory or one of its ancestors |
| Directories.EnsureAllReports | generate-app-assets.js:75-80 | when parents come first in the list, the loop creates exactly the listed directories that were missing beforehand, in list order |
| Directories.MissingAfterEnsure | generate-app-assets.js:76-77 | creating the first listed directory does not change which later directories are missing |
| Directories.MissingAgree | generate-app-assets.js:76 | two directory sets that agree on the listed paths miss the same ones |
| Directories.EnsureAllPresent | generate-app-assets.js:76 | when every listed directory already exists, the loop changes nothing |
| Directories.OutputDirsParentsFirst | generate-app-assets.js:65-73 | the fixed list names every directory after its ancestors, and none twice |
| Directories.ParentsFirstTail | generate-app-assets.js:65-73 | dropping the head of a parents-first list leaves it parents-first |
| Directories.CreateDirectories | generate-app-assets.js:64-81 | afterwards `existsSync` reports all seven listed paths, whether as directories or as regular files that were already there; no path is removed; only listed paths and their ancestors are added; exactly the listed paths it did not report beforehand are created, in list order |
| Directories.EnsureAllChecked | generate-app-assets.js:75-80 | the loop beside regular files never removes a path; when it throws, it is at a listed directory that was missing and that a regular file obstructs |
| Directories.CheckedWhenClear | generate-app-assets.js:75-80 | when no missing listed directory is obstructed, the loop beside regular files never throws and does what the plain loop does |
| Directories.CheckedWhenObstructed | generate-app-assets.js:75-80 | with parents listed first, a missing listed directory that a regular file obstructs makes the loop throw |
| Directories.CreateDirectoriesChecked | generate-app-assets.js:64-81 | `createDirectories` beside regular files finishes exactly when no missing listed directory is obstructed, and then it is `CreateDirectories`; otherwise it throws at a missing, obstructed listed directory; it never removes a path |
| Directories.CreateDirectoriesIdempotent | generate-app-assets.js:64-81 | a second call leaves the same directories and creates none |
| Documents.AppStoreListing | generate-app-assets.js:166-210 | the listing is a "Social Networking" app with a different secondary category, rated 17+, with sixteen keywords and two content warnings |
| Documents.ListingKeywordsDistinct | generate-app-assets.js:194-198 | no keyword is repeated |
| Generator.VectorName | generate-app-assets.js:401 | `.replace('.png', '.svg')` turns a single-extension name into its stem plus ".svg" and leaves a name without ".png" unchanged |
| Generator.VectorNameKeepsTail | generate-app-assets.js:401-429 | only the first ".png" is rewritten: `a.png.png` becomes `a.svg.png` |
| Generator.VectorNameInjective | generate-app-assets.js:409 | the rewritten name has no '/' and has a '.', and different single-extension names stay different |
| Generator.IconEntry | generate-app-assets.js:399-402 | an icon entry named `stem.png` goes to `dir/stem.svg`, drawn by the icon template at the entry's size |
| Generator.ScreenEntry | generate-app-assets.js:407-410 | a launch-screen entry named `stem.png` goes to `dir/stem.svg`, drawn by the launch template at the entry's width and height |
| Generator.PwaEntry | generate-app-assets.js:436-438 | a web-app size goes to `public/icons/icon-${size}.svg` (the directory, then '/', then `PwaName(size)`), drawn by the icon template at that size |
| Generator.PwaName | generate-app-assets.js:438 | the name is "icon-", then the decimal digits of the size (`Decimal(size)`), then ".svg" |
| Generator.IconArtifacts | generate-app-assets.js:399-404 | one artifact per icon, in table order, with the icon template at the entry's size |
| Generator.ScreenArtifacts | generate-app-assets.js:407-412 | one artifact per launch screen, in table order, with the launch template at the entry's dimensions |
| Generator.PwaArtifacts | generate-app-assets.js:436-440 | one `icon-{size}.svg` artifact per web-app size, in list order |
| Generator.Resolve | generate-app-assets.js:399-440 | the number of artifacts is the number of entries across the tables, plus one for the feature graphic, plus the web-app sizes |
| Generator.ResolveGroups | generate-app-assets.js:399-440 | the artifacts are the five groups one after another: iOS icons, launch screens, Android icons, feature graphic, web-app icons |
| Generator.Concat5 | generate-app-assets.js:399-440 | each position of five groups written one after another holds the matching element of its group |
| Generator.ResolveWebIcon | generate-app-assets.js:436-438 | the web-app icons come after the three tables and the feature graphic, in list order |
| Generator.ResolveEnumerates | generate-app-assets.js:399-440 | exactly one artifact per entry, in declaration order, each with its group's directory, its rewritten name and the template of its kind |
| Generator.GroupDistinct | generate-app-assets.js:401 | within one directory, distinct plain file names give distinct paths |
| Generator.AppendDistinct | generate-app-assets.js:401-409 | two collision-free groups written to disjoint directories stay collision-free together |
| Generator.IconGroup | generate-app-assets.js:399-404 | an icon table with distinct single-extension names yields distinct paths in its directory |
| Generator.ScreenGroup | generate-app-assets.js:407-412 | the same for the launch screens |
| Generator.PwaNameInjective | generate-app-assets.js:438 | `icon-{size}.svg` contains no '/', has a '.', and determines the size |
| Generator.PwaGroup | generate-app-assets.js:436-440 | distinct web-app sizes give distinct paths |
| Generator.OutputDirsDistinct | generate-app-assets.js:401-438 | the six output directories are pairwise different |
| Generator.CombineGroups | generate-app-assets.js:399-440 | five collision-free groups in five different directories make a collision-free whole |
| Generator.ResolvePathsDistinct | generate-app-assets.js:399-440 | a well-formed manifest resolves to pairwise distinct paths, all within the five asset directories |
| Generator.ProperSizes | generate-app-assets.js:96-161 | an icon draws a disc of positive radius exactly above size 4; a launch screen fits exactly from 160 by 360 |
| Generator.AppendProper | generate-app-assets.js:399-440 | joining two sequences of proper drawings gives a sequence of proper drawings |
| Generator.ResolveProper | generate-app-assets.js:399-440 | when every entry is large enough, every resolved drawing is proper |
| Generator.ManifestDrawable | generate-app-assets.js:12-52 | every shipped icon is larger than 4 and every shipped screen is at least 160 by 360 |
| Generator.PwaNames | generate-app-assets.js:438 | the name built for size 192 is `icon-192.svg`, and the one for size 512 is `icon-512.svg` |
| Generator.VectorPath | generate-app-assets.js:428-431 | an entry named `stem.png` lands at `dir/stem.svg` |
| Generator.FeatureGraphicPath | generate-app-assets.js:424-431 | the feature graphic comes right after the three tables and lands directly in `mobile-assets/android` as `stem.svg` |
| Generator.ShippedFeatureGraphic | generate-app-assets.js:46-50 | in the shipped manifest the feature graphic is the 25th artifact and is named `feature-graphic.png` |
| Execution.FirstFailing | generate-app-assets.js:399-402 | the index of the first artifact `writeFileSync` cannot write: every earlier one can be written, and that one cannot |
| Execution.WriteFile | generate-app-assets.js:402 | a write succeeds exactly when the parent of the whole path is a directory and the path is not one; it then stores the content at the path, replacing any old file, and touches nothing else; a failed write throws with that path and changes nothing |
| Execution.WriteAll | generate-app-assets.js:399-447 | writes never change the directories; the run finishes exactly when every artifact can be written; otherwise it throws at the first one that cannot |
| Execution.PathsCount | generate-app-assets.js:401 | artifacts that share no path have as many paths as there are artifacts |
| Execution.WriteAllKeepsPrefix | generate-app-assets.js:399-447 | a failed run leaves exactly the files of the writes before the failing one, with no rollback |
| Execution.DistinctTail | generate-app-assets.js:399-440 | dropping the first artifact keeps the paths distinct, and the first path is not among the rest |
| Execution.WroteCons | generate-app-assets.js:402 | writing one artifact and then the rest is writing them all |
| Execution.PathsCons | generate-app-assets.js:402 | the paths of a sequence are its head's path together with the paths of its tail |
| Execution.WriteAllSucceeds | generate-app-assets.js:399-447 | when every artifact can be written and the paths are distinct, all writes succeed; each path holds its artifact's content, no other path appears, and other files are untouched |
| Execution.WroteTwice | generate-app-assets.js:402 | writing the same artifacts again over their own result changes nothing |
| Execution.DocumentArtifacts | generate-app-assets.js:212-215 | three documents in `mobile-assets`, the listing first, then the privacy policy and the terms of service, each stamped with its own date |
| Execution.Program | generate-app-assets.js:399-447 | the output is the resolved assets followed by the three documents |
| Execution.Writes | generate-app-assets.js:399-447 | the shipped run writes 30 files |
| Execution.TreeListed | generate-app-assets.js:65-73 | every directory that receives a file is one of the seven listed |
| Execution.TreeCreated | generate-app-assets.js:395 | after `createDirectories`, `existsSync` reports every directory that receives a file: a directory, or a regular file that was already there |
| Execution.Existing | generate-app-assets.js:76 | `existsSync` reports every directory and every regular file |
| Execution.WithDirs | generate-app-assets.js:77 | the recursive mkdirs turn the paths they added into directories and leave the regular files alone |
| Execution.RunWith | generate-app-assets.js:395 | a regular file in the way of a recursive mkdir makes the run throw at a listed directory before any write; otherwise every listed directory that is not a regular file becomes a directory; no directory is removed |
| Execution.Run | generate-app-assets.js:391-447 | the same for `main`: an obstructed mkdir throws before any write, and no directory is removed |
| Execution.DocumentFileNames | generate-app-assets.js:213 | the three document names are plain and pairwise different |
| Execution.DocumentNames | generate-app-assets.js:212-386 | the documents have distinct paths in `mobile-assets`, whatever their contents |
| Execution.DocumentsDistinct | generate-app-assets.js:212-386 | the documents never collide with each other |
| Execution.DocsApart | generate-app-assets.js:213 | the documents' directory is none of the asset directories |
| Execution.ProgramPlaced | generate-app-assets.js:399-447 | for a well-formed manifest no written file overwrites another, and each lies in the output tree |
| Execution.WriteCount | generate-app-assets.js:399-447 | the generator writes 30 files: 27 assets and 3 documents |
| Execution.WritesPlaced | generate-app-assets.js:399-447 | the shipped run's 30 paths are pairwise distinct and all inside the output tree |
| Execution.ProgramProper | generate-app-assets.js:399-447 | a drawable manifest makes every written drawing proper |
| Execution.DocumentsProper | generate-app-assets.js:443-447 | the documents are not drawings |
| Execution.WritesProper | generate-app-assets.js:399-440 | no icon the shipped run writes has a degenerate disc, and every launch layout keeps its circles and text anchors inside its canvas |
| Execution.OutputDirsUndotted | generate-app-assets.js:65-73 | no listed directory contains a '.' |
| Execution.DottedNotAncestor | generate-app-assets.js:77 | a path with a '.' is never a recursive mkdir's ancestor of a path without one |
| Execution.PlacedOffTree | generate-app-assets.js:399-447 | files with an extension written into the tree never land on a listed directory or one of its ancestors |
| Execution.ReadyToWrite | generate-app-assets.js:395-447 | in an unobstructed file system the directories are created without a throw, and then every file of the tree can be written |
| Execution.RunWithSucceeds | generate-app-assets.js:395-447 | in an unobstructed file system, creating the tree and then writing collision-free files of the tree finishes, and each file holds its content |
| Execution.StaysUnobstructed | generate-app-assets.js:395-447 | a finished run leaves the file system unobstructed and the whole tree in place |
| Execution.TreePresent | generate-app-assets.js:75-76 | with the whole tree in place, the directory loop creates nothing and changes nothing |
| Execution.RunWithIdempotent | generate-app-assets.js:395-447 | in an unobstructed file system, doing it twice gives the same result as doing it once, and the second time creates no directory |
| Execution.RunSucceeds | generate-app-assets.js:391-447 | in an unobstructed file system `main` finishes; each of its 30 files holds its own content, and other files are untouched |
| Execution.FreshRunWithFiles | generate-app-assets.js:395-447 | on an empty disk, creating the tree and writing collision-free files of the tree leaves exactly one file per artifact |
| Execution.FreshRunFiles | generate-app-assets.js:391-447 | on an empty disk `main` finishes and leaves exactly 30 files |
| Execution.RunIdempotent | generate-app-assets.js:391-447 | in an unobstructed file system, running `main` twice with the same dates leaves the same file system as running it once, and the second run creates no directory |
| Execution.WritesSplit | generate-app-assets.js:399-447 | `main` writes the 27 assets and the store listing, then the privacy policy and the terms of service |
| Execution.DatedPaths | generate-app-assets.js:443-447 | the two dated documents go to `mobile-assets/privacy-policy.md` and `mobile-assets/terms-of-service.md` |
| Execution.SamePathsSet | generate-app-assets.js:399-447 | two runs that write the same paths in order write the same set of paths |
| Execution.WroteSamePaths | generate-app-assets.js:399-447 | rewriting files at the same paths, with the same files before the changed ones, keeps the set of files and every content but the changed ones |
| Execution.RerunWith | generate-app-assets.js:395-447 | after a run on an unobstructed file system, a run that writes the same paths and changes only some trailing files finishes, adds no file, and keeps every other file's content |
| Execution.RerunWritesOtherDay | generate-app-assets.js:391-447 | creating the tree and writing another day's files, after a run on an unobstructed file system, finishes, adds no file, and keeps every file but the two dated documents |
| Execution.RerunOtherDay | generate-app-assets.js:391-447 | running `main` again on another day, after a run on an unobstructed file system, finishes and adds no file; every file but the privacy policy and the terms of service keeps its content, the 27 drawings and the store listing included |
| Execution.FileAtDirectoryFails | generate-app-assets.js:76-77 | a regular file at a directory that receives a file makes the run throw, at a mkdir or at the write |
| Execution.DirectoryAtPathFails | generate-app-assets.js:402 | a directory at a path the run writes makes it throw |
| Execution.ProgramWebIcon | generate-app-assets.js:436-438 | the web-app icons of the output come after the three tables and the feature graphic |
| Execution.WebIconFileFails | generate-app-assets.js:436-438 | with a regular file at `public/icons` and at least one web-app size, the run throws |
| Execution.WebIconDirAsFileFails | generate-app-assets.js:438 | with a regular file at `public/icons`, `main` throws |
| Execution.ShippedWebIcons | generate-app-assets.js:436-438 | `main`'s 26th and 27th files are the web-app icons of sizes 192 and 512, in that order |
| Execution.WebIconPaths | generate-app-assets.js:438 | the web-app icons of sizes 192 and 512 go to `public/icons/icon-192.svg` and `public/icons/icon-512.svg` |
| Execution.ShippedWebIconPaths | generate-app-assets.js:436-438 | `main` writes `public/icons/icon-192.svg` and then `public/icons/icon-512.svg`, each drawn by the icon template at its size |
| Execution.EmptyDiskFails | generate-app-assets.js:402 | on a disk without directories the first write fails, at the first path, and nothing is written |
| Execution.WithoutDirectoriesFails | generate-app-assets.js:395-402 | without `createDirectories`, the run on an empty disk fails at its first icon and writes nothing |

## Left out

- Console output is not modelled: the progress lines, the "Created directory" messages and the closing next-steps list. `CreateDirectories` still returns the list of directories it reports.
- Failures other than the file system's shape are not modelled: permissions, invalid paths, a full disk. The failures modelled are a recursive mkdir that meets a regular file, a write whose parent is not a directory, and a write to a directory.
- File-system values need not be coherent: a directory below a regular file is taken as given, though a real disk cannot hold one.
- The SVG markup text is not modelled, and neither is how JavaScript prints a number such as `1024/6`. Geometry is exact `real` arithmetic.
- The heart's fixed path data is not modelled; only its translation, scale and fill are.
- Fonts are left out (`font-family`, `text-anchor`), and so are the XML prolog and namespace.
- Documents.AppStoreListing: the long description prose is not modelled, and neither is the `JSON.stringify` indentation. Only the structured fields are modelled.
- The privacy-policy and terms-of-service texts are represented only by their date. Each `new Date().toLocaleDateString()` becomes a parameter, because the clock and the locale are outside the program. The two dates are independent, as two clock reads may straddle midnight.
- Text.ReplaceFirst: models only a string pattern with a replacement free of `$` sequences, which is how the generator calls it. Regular-expression patterns and replacement patterns are not modelled.
- `capacitor.config.ts` and `next.config.mobile.ts` are not part of this model. They are configuration data consumed by other tools.
- Execution.RunIdempotent: equality of the whole file system holds for the same dates only, because the legal documents carry their date. For another day, RerunOtherDay shows that the run finishes, adds no file and changes no other file.
- Execution.RunSucceeds: success is proved for an unobstructed file system. That condition is sufficient; it is not shown to be necessary. FileAtDirectoryFails, DirectoryAtPathFails and WebIconDirAsFileFails show how an obstructed one throws.
- Execution.RunWithSucceeds: the same condition, for any collision-free files of the tree.
- Text.Decimal: models the digits `${size}` prints for a whole number. JavaScript prints numbers of 1e21 and above in exponent form; no size in the generator comes near that.
