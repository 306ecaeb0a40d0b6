# A verified model of the scene logic of `public/scene.js`

`public/scene.js` drives a Christmas greeting page in the browser. Most of it is
DOM, canvas and animation plumbing. Under that plumbing sit five small
deterministic cores. This project models each of them in Dafny and proves what
each one promises. Random numbers, timestamps and "did this image load" are
parameters of the model.

- **AssetResolver** (`asset_resolver.dfy`). `resolveUrl` turns an image name
  into candidate locations. For each base path it pushes two candidates: the
  base path without a trailing slash, then the base path without one leading
  slash and then without a trailing slash, each followed by `/` and the name.
  For `/` both candidates are `/name`; for a base path without a leading slash
  they coincide too. Then it drops duplicates and keeps first-occurrence
  order. `preloadImages` tries a name's candidates one after
  another until one loads.
  - The loop is proved against a generic specification over any list of base
    paths.
  - For the four base paths of line 6 the list is exactly
    `/images/n, images/n, /src/images/n, src/images/n, /n`.
  - Whether a location loads is an oracle `loads`.
- **Snow** (`snow.dfy`). The flake population:
  - its count is the floored area times a density, clamped to a range that
    depends on the device class;
  - it is an array of flake records created once;
  - each frame clamps the elapsed time to 40 ms, moves every flake in place and
    applies the respawn and wrap rules.
- **Forest** (`forest.dfy`). The tree counts of the two forest layers, and the
  image location each tree uses.
- **Flight** (`flight.dfy`).
  - The easing function and the linear position map of the flying figure.
  - The `messageShown` latch as a class. Its invariant, `FlightLoop.Valid`,
    counts passes and greeting schedules, and proves that each pass schedules
    the greeting exactly once.
- **Verse** (`verse.dfy`). The passage overlay as a class over the session
  storage key `christmasVerseIndex`:
  - opening reuses or draws the index;
  - "New verse" overwrites it;
  - the three dismissals clear it.
  - The round trip `parseInt(String(n), 10) == n` is proved for `String` as
    the decimal digits of a natural number, which covers the indices 0..4 the
    page stores.

`wrappers.dfy` holds the `Option` type.

Four facts about the code shape the contracts:
- **Flake bounds after a step.** After the step, x lies in the closed range
  [0, innerWidth]. A flake that leaves on the left is
  put exactly at `innerWidth` (line 82). y can equal `innerHeight`, because the
  respawn test at line 80 is a strict `>`.
- **Initial flakes.** They start with y in [-H, 0) in canvas pixels; only
  respawned flakes start in [-50, 0).
- **Position at e = 1/2.** There x is `innerWidth / 2`: the figure's left edge
  is at the viewport centre.
- **Latch reset.** The latch is cleared by the completion timer of line 228,
  1200 ms after the pass ends, before the restart timer starts the next pass.

## Model

| member | source | states |
|---|---|---|
| AssetResolver.DropTrailingSlash | public/scene.js:12 | the result is the path with exactly its last character removed when that is a slash, and the path itself otherwise |
| AssetResolver.DropLeadingSlash | public/scene.js:13 | the result is the path with exactly its first character removed when that is a slash, and the path itself otherwise |
| AssetResolver.PathCandidates | public/scene.js:10-14 | one base path contributes two candidates, both ending with the name |
| AssetResolver.RawCandidates | public/scene.js:8-15 | the list before filtering has two entries per base path, each ending with the name |
| AssetResolver.FirstIndex | public/scene.js:16 | `a.indexOf(v)` is a position holding `v` with no earlier occurrence |
| AssetResolver.FilterFirst | public/scene.js:16 | position i of the first n is kept exactly when `a.indexOf(a[i]) == i`, in position order |
| AssetResolver.FilterFirstProperties | public/scene.js:16 | the indexOf filter keeps every value once, drops nothing, and keeps first-occurrence order |
| AssetResolver.Dedup | public/scene.js:16 | the filtered list is duplicate-free, has the same values as its input, and is in first-occurrence order |
| AssetResolver.Candidates | public/scene.js:7-17 | for any base paths: no duplicates, every raw candidate present, first-occurrence order, every entry ends with the name, length at most 2·\|paths\|, non-empty for non-empty paths |
| AssetResolver.ResolveUrlFrom | public/scene.js:7-17 | the push loop followed by the filter returns exactly the specified candidate list |
| AssetResolver.PushPath | public/scene.js:10-14 | one loop iteration appends exactly the two candidates of its base path |
| AssetResolver.CandidatePathsNonEmpty | public/scene.js:6-10 | no base path of line 6 is empty, so the `!p` branch is never taken |
| AssetResolver.ConcreteRawCandidates | public/scene.js:6-15 | for the base paths of line 6 the unfiltered list repeats the first pair and yields `/name` twice |
| AssetResolver.ShapeFirstIndices | public/scene.js:16 | in that list the first occurrences are at positions 0, 1, 2, 3 and 6 |
| AssetResolver.DedupShape | public/scene.js:16 | filtering that list leaves its five distinct values in order |
| AssetResolver.ImageCandidates | public/scene.js:6-17 | the candidate list for the constant base paths has five distinct entries, each ending with the name |
| AssetResolver.ConcreteCandidates | public/scene.js:6-17 | resolveUrl with the base paths of line 6 is exactly `/images/n, images/n, /src/images/n, src/images/n, /n` |
| AssetResolver.ResolveUrl | public/scene.js:6-17 | resolveUrl returns the generic candidate list for line 6, which is the concrete five-entry list |
| AssetResolver.FirstLoading | public/scene.js:22-28 | the stopping position: nothing before it loads, and the candidate at it loads |
| AssetResolver.LoadedUrl | public/scene.js:24-26 | the reported url is null exactly when no candidate loads; otherwise it is the candidate at the stopping position, the first that loads |
| AssetResolver.Attempts | public/scene.js:23-28 | the locations assigned to `img.src` are a prefix of the candidates: all of them on failure, ending with the reported url on success |
| AssetResolver.TryNext | public/scene.js:22-30 | the counter loop reports the first loading candidate and tries exactly the candidates up to it, in order |
| AssetResolver.FirstLoadingIs | public/scene.js:22-28 | a position before which nothing loads and at which something loads is the stopping position |
| AssetResolver.ResolvedUrl | public/scene.js:20-31 | a name's url is null exactly when none of its five candidates loads; otherwise it is one of them, loads, and ends with the name |
| AssetResolver.PreloadOne | public/scene.js:20-31 | one promise resolves to `{name, url}` with the first loading candidate of `name`, after trying exactly the candidates before it |
| AssetResolver.PreloadImages | public/scene.js:19-33 | one result per name, in input order, each with its name and its first loading candidate or null |
| AssetResolver.AttemptsDistinct | public/scene.js:16-28 | no candidate is tried twice |
| AssetResolver.NotFoundAfterAllTried | public/scene.js:24 | a null url is reported only after every candidate was tried |
| Snow.Rand | public/scene.js:53 | `rand(min, max)` of a number in [0, 1) lies in [min, max) |
| Snow.CreateFlake | public/scene.js:55-57 | a new flake has x in [0, W), y in [-H, 0), and radius, speeds, opacity and twinkle period in their ranges |
| Snow.Density | public/scene.js:62-63 | 0.00035 on touch devices and screens narrower than 640, 0.0007 otherwise |
| Snow.MinFlakes | public/scene.js:64 | 80 on touch devices, 150 otherwise |
| Snow.MaxFlakes | public/scene.js:65 | 400 on touch devices, 1000 otherwise |
| Snow.RawCount | public/scene.js:66 | the floor of area times density |
| Snow.FlakeCount | public/scene.js:61-66 | the count lies in [80, 400] on touch devices and in [150, 1000] otherwise, and is the floored product whenever that lies in the range |
| Snow.NarrowDesktopCount | public/scene.js:62-65 | a non-touch screen narrower than 640 gets the touch density but keeps the non-touch bounds |
| Snow.CountGrowsWithHeight | public/scene.js:66 | a taller viewport never gets fewer flakes |
| Snow.TouchNeverMore | public/scene.js:61-66 | a touch device never gets more flakes than a non-touch one on the same viewport |
| Snow.FrameDelta | public/scene.js:72 | the elapsed time is at most 40; it is 40 once 40 ms have passed, and the true difference otherwise |
| Snow.Respawns | public/scene.js:79-80 | a flake respawns when its moved y is strictly below the bottom edge |
| Snow.StepFlake | public/scene.js:78-82 | after a step, x is in [0, innerWidth] and y ≤ innerHeight; a respawned flake has y in [-50, 0) and x in [0, innerWidth); otherwise the flake moved by dt/16 frames and wrapped; its other fields are kept |
| Snow.LongPauseMovesAsFortyMs | public/scene.js:72-82 | any pause of 40 ms or more moves a flake exactly as 40 ms does |
| Snow.LeftWrapLandsOnRightEdge | public/scene.js:78-82 | every flake that does not respawn and moves left of 0 lands exactly on x = innerWidth |
| Snow.LeftWrapExample | public/scene.js:78-82 | a flake at x = 0 drifting left for 16 ms lands on x = innerWidth |
| Snow.SnowField.Valid | public/scene.js:54-57 | every flake keeps the radius, speed, opacity and twinkle ranges createFlake gave it |
| Snow.SnowField.constructor | public/scene.js:59-70 | exactly `count` flakes, flake i made by createFlake from its own draws, and `last` set to now |
| Snow.SnowField.ResetClock | public/scene.js:134 | `last` becomes the preload completion time |
| Snow.SnowField.Update | public/scene.js:71-86 | the same array of the same length; flake i takes one step with the clamped elapsed time; `last` becomes `now`; createFlake's ranges are kept; every x is in [0, innerWidth] and every y ≤ innerHeight |
| Forest.CeilDiv | public/scene.js:151 | the least q with q·b ≥ a |
| Forest.CountBack | public/scene.js:151 | at least 20 back trees, enough to span the viewport at 80 px each, and no more than that whenever above 20 |
| Forest.CountFront | public/scene.js:152 | at least 28 front trees, spanning the viewport at 40 px each; above 28 the count is even and minimal |
| Forest.FrontAtLeastBack | public/scene.js:151-152 | the front layer never has fewer trees than the back layer |
| Forest.FirstOr | public/scene.js:167 | `urls[0] \|\| ''`: the first entry, or the empty string for an empty list |
| Forest.BackTreeSource | public/scene.js:156 | for a non-empty list the source is an entry of the list, chosen cyclically |
| Forest.FrontTreeSource | public/scene.js:167 | even front trees take the first `2.png` candidate, odd ones the first `1.png` candidate |
| Forest.SpawnForest | public/scene.js:154-174 | the two loops create `countBack` and `countFront` trees, each with its specified source |
| Forest.BackTreeSourceResolved | public/scene.js:147-156 | with the `1.png` candidates the index is in range and the `''` fallback is never used; back tree i uses candidate i mod 5, which ends with `1.png`, whether it loads or not |
| Forest.FrontTreeSourceResolved | public/scene.js:147-167 | front trees alternate between `/images/2.png` and `/images/1.png` |
| Flight.Ease | public/scene.js:207 | easing maps [0, 1] into [0, 1] |
| Flight.EaseEndpoints | public/scene.js:207 | e(0) = 0, e(1/2) = 1/2 in both branches, e(1) = 1 |
| Flight.EaseSymmetric | public/scene.js:207 | e(1 − t) = 1 − e(t) |
| Flight.EaseMonotone | public/scene.js:207 | easing is non-decreasing on [0, 1] |
| Flight.TimeFraction | public/scene.js:218 | t ≤ 1, t is 1 exactly when the duration has elapsed, and t ≥ 0 from the start time on |
| Flight.SantaWidth | public/scene.js:214 | the width is at least 80: a zero measurement gives 140 and a small one gives 80 |
| Flight.PositionX | public/scene.js:220 | `x = -w + (innerWidth + 2w)·e` |
| Flight.PositionEnds | public/scene.js:220 | x = −w at e = 0, x = innerWidth + w at e = 1, x = innerWidth/2 at e = 1/2 |
| Flight.PositionExample | public/scene.js:218-220 | with width 1000 and figure 140 the pass runs from −140 to 1140 |
| Flight.PositionMonotone | public/scene.js:220 | the position grows with the eased fraction |
| Flight.PastMidpoint | public/scene.js:226 | the figure's centre `x + w/2` is strictly right of the viewport centre |
| Flight.MidpointThreshold | public/scene.js:220-226 | the centre crossing holds exactly above an explicit eased-fraction threshold; never at the start, always at the middle and the end |
| Flight.FlightLoop.Valid | public/scene.js:208-228 | the latch is clear when no pass is under way or a restart is pending; every finished pass scheduled the greeting once, and the pass in flight has scheduled it exactly when the latch is set |
| Flight.FlightLoop.constructor | public/scene.js:208-210 | the latch starts clear, the width is 140, and no pass has started |
| Flight.FlightLoop.StartAnimation | public/scene.js:212-216 | measures the width (at least 80), records the start time and starts a pass without touching the latch |
| Flight.FlightLoop.Frame | public/scene.js:217-229 | the position of the figure; the greeting is scheduled exactly when the latch is clear and the centre has crossed, and each pass schedules it once; frames stop at t = 1 |
| Flight.FlightLoop.SettleTimer | public/scene.js:228 | only the completion timer clears the latch, then the restart timer is armed |
| Flight.OnePass | public/scene.js:212-229 | a full pass schedules the greeting exactly once and leaves the latch clear |
| Verse.DigitChar | public/scene.js:305 | the decimal digit of a value below 10 |
| Verse.NatToString | public/scene.js:305 | `String(idx)` for a stored index is a non-empty digit string without a leading zero |
| Verse.IsJsSpace | public/scene.js:306 | the characters parseInt skips first: ECMAScript white space and line terminators |
| Verse.TrimStart | public/scene.js:306 | the result is a suffix of the input; everything dropped is white space, and the result does not start with white space |
| Verse.DigitIsNotSpace | public/scene.js:306 | no decimal digit is white space to parseInt |
| Verse.TrimStartKeeps | public/scene.js:306 | a string that does not start with white space is read from its first character |
| Verse.DigitPrefix | public/scene.js:306 | the longest run of leading decimal digits |
| Verse.DigitsValue | public/scene.js:306 | the decimal value of a digit string, most significant digit first |
| Verse.SignStripped | public/scene.js:306 | one leading `+` or `-` is dropped |
| Verse.ParseInt | public/scene.js:306 | `parseInt(s, 10)` is NaN exactly when no digit follows the white space and sign |
| Verse.DigitPrefixOfDigits | public/scene.js:306 | a digit string is read in full |
| Verse.ValueOfNatToString | public/scene.js:305-306 | the digits of `String(n)` have the value n |
| Verse.StringParseRoundTrip | public/scene.js:305-306 | `parseInt(String(n), 10) == n` for the decimal form of every natural n, so every stored index reads back as itself |
| Verse.PickIndex | public/scene.js:305 | the drawn index is in [0, 5) and is the floor of u·5 |
| Verse.EveryVerseReachable | public/scene.js:305 | every one of the five passages can be drawn |
| Verse.Shown | public/scene.js:323 | the passage shown for a parsed index is that index when in range, and none for NaN or an out-of-range index |
| Verse.VerseSession.Valid | public/scene.js:312-340 | an open overlay has its Escape listener; without an open overlay a listener left behind by the close button only exists while the key is absent |
| Verse.VerseSession.constructor | public/scene.js:304 | a page load sees the session's stored key, with no overlay open |
| Verse.VerseSession.Open | public/scene.js:304-306 | with no key, draw an index, store `String(idx)` and show it; with a key, show its parsed value and write nothing |
| Verse.VerseSession.NewVerse | public/scene.js:326 | overwrite the key with a fresh index and show it |
| Verse.VerseSession.CloseButton | public/scene.js:312 | the overlay and the key are removed; the Escape listener stays registered; the passage text is untouched |
| Verse.VerseSession.EscapeKey | public/scene.js:338-339 | an open overlay is closed and the key removed; every listener that fires unregisters itself, so none is left; a stale listener finds the key already gone |
| Verse.VerseSession.BackdropClick | public/scene.js:340 | the overlay, the key and its Escape listener are removed; the passage text is untouched |
| Verse.ReopenAfterReload | public/scene.js:304-306 | reopening after a reload without dismissing shows the same passage |
| Verse.DismissThenOpen | public/scene.js:304-340 | after each of the three dismissals, opening again draws afresh |

## Left out

- Canvas drawing and the twinkle alpha (lines 73, 75-77, 83): they need `Math.sin` and the 2D context, and they do not affect the state.
- The DPR resize (lines 42-49): this is canvas setup. `SnowField.constructor` takes the canvas size `W` by `H` as parameters, and no resize changes the array.
- Floating point: positions, easing and the density product are exact reals, so IEEE rounding is not modelled.
- AssetResolver.PreloadImages: the promises of `Promise.all` run concurrently and their load events interleave. The model runs them one name after another. With a fixed `loads` oracle, each result depends only on its own name.
- The `console.warn` calls (lines 24 and 318) are not modelled.
- DOM construction is not modelled: tree heights, offsets, opacity, sway durations, the mousemove parallax and the audio button (lines 155-189).
- The greeting (lines 233-279) is not modelled: the SVG fetch and parse, the stroke reveal, the `#greeting` guard and the 9000 ms + 900 ms auto-clear. Flight.FlightLoop.Frame only says when `setTimeout(showGreeting, 220)` is called.
- The Web Animations of lines 283-293 and 333-336 are presentation only.
- Audio playback, its fallback and the `sleighMuted` preference (lines 88-130) wrap `HTMLAudioElement`.
- The moon, santa, background and angel image preloads (lines 202-203, 309, 316-319) use `preloadImages` and add nothing beyond AssetResolver.PreloadImages.
- Verse.NatToString: `String` is modelled as the decimal digits of an unbounded natural number. JavaScript writes numbers of 10^21 and above in exponent form and loses precision above 2^53; the page only stores indices 0..4.
- Verse.VerseSession.Open: requires that no overlay is open. Two overlays in the document at once are not modelled.
- The texts of the passage table (lines 296-302): only its length, 5, matters to the state.
- Flight.FlightLoop.Frame: the vertical bob and the rotation (lines 221-224) are sines of the eased fraction and only style the figure.
- Timers are calls the caller makes in order. The restart timers of line 228 are never cancelled, so the model has no cancellation.
