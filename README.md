# Sound-reactive wallpaper monitor: a Dafny model

`sound_level_monitor.py` records a short sample of the ambient sound, turns
it into a decibel reading, and waits two seconds between samples. It
classifies the reading into one of four loudness tiers (quiet, moderate, loud, very loud). Whenever the tier differs
from the previous tick's tier, it sets a random wallpaper from that tier's
folder.

This project models the decision pipeline between the reading and the
wallpaper change. It has three parts, plus the loop that drives them.

- `classifier.dfy` (module `Classifier`) covers the level classifier
  `classify_sound_level` and the threshold table `THRESHOLDS_DB`.
  - `Classify` scans a table of `Threshold(tier, low, high)` rows in
    configuration order. It returns the tier of the first row whose interval
    satisfies `low <= db < high`, or `Quiet` when no row matches.
  - `Thresholds` is the reference table: quiet [-100, -40), moderate
    [-40, -20), loud [-20, -10), very loud [-10, 10).
  - The lemmas prove first-match-wins, the fallback, boundary values, and
    that a contiguous table partitions its range. `ClassifyThresholds` checks
    the table-driven classifier against an independent band-by-band
    definition, `ReferenceTier`.
- `sampler.dfy` (module `Sampler`) covers the sampler's failure path. A capture
  that raises yields the sentinel reading -100 dB. The reading of a
  successful capture is an opaque input.
- `tracker.dfy` (module `Tracker`) covers the tier-transition tracker, i.e.
  `last_level` in `main`.
  - `LevelTracker` is a class with the field `lastLevel: Option<Tier>`. It
    starts as `None`. `Observe(level)` reports `changed` exactly when the
    level differs from `lastLevel`, and afterwards holds the observed level.
  - `ChangePoints(tiers)` is the specification of the debounce rule: the
    positions where the tier differs from the previous one, with position 0
    always counting.
- `wallpaper.dfy` (module `Wallpaper`) covers the candidate filter in
  `get_random_wallpaper`.
  - `Lower` is the lower-casing function, `EndsWith` is the suffix test, and
    `HasImageExtension` tests for `.jpg`, `.jpeg` or `.png`.
  - `Candidates` is the list comprehension.
  - `PickWallpaper` returns `None` on an empty result and otherwise some
    kept name; the choice among them is left open.
- `monitor.dfy` (module `Monitor`) covers the body of `main`'s loop, run over
  a finite sequence of captures instead of `while True`.
  - `Step` models one tick and `Run` models the loop.
  - `Run` proves three things about its log. The ticks that report a change
    are exactly the transitions of the classified tiers. Their positions,
    `Fired(log)`, equal `ChangePoints` of those tiers. Each wallpaper
    decision is consistent with the tier's folder listing.
- `wrappers.dfy` (module `Wrappers`) holds the `Option` datatype.

`last_level` is assigned only when the level changed
(sound_level_monitor.py:99-104). On an unchanged tick it already equals the
new level, so after every tick it holds that tick's tier, which
`LevelTracker.Observe` proves. On a change the code prints the old and new
tier (sound_level_monitor.py:100); the model reports only a `changed` flag.

The source reads the module-level `THRESHOLDS_DB`. `Run` and `Step` take the
table as a parameter instead. `Monitor.ScenarioRun` runs the loop with
`Classifier.Thresholds`, the model of that table. The facts about that
specific table are stated on `Classify(Thresholds, ·)` in `Classifier`.

## Model

| member | source | states |
|---|---|---|
| Classifier.Classify | sound_level_monitor.py:54-59 | The classifier is total: the result is the fallback `Quiet` or the tier of some row whose half-open interval contains the reading |
| Classifier.ClassifyFirstMatch | sound_level_monitor.py:56-58 | First match in table order wins: if row k contains the reading and no earlier row does, the result is row k's tier, whatever later rows overlap |
| Classifier.ClassifyNoMatch | sound_level_monitor.py:59 | A reading that no row contains falls back to `Quiet` |
| Classifier.ContiguousOrdered | sound_level_monitor.py:24-29 | In a contiguous table, each later row starts no lower than an earlier row ends |
| Classifier.ContiguousDisjoint | sound_level_monitor.py:24-29 | In a contiguous table, no reading lies in two rows |
| Classifier.ContiguousCovers | sound_level_monitor.py:24-29 | A contiguous table covers [first low, last high) without gaps: the returned row contains the reading |
| Classifier.ThresholdsContiguous | sound_level_monitor.py:24-29 | The reference table is contiguous and spans [-100, 10) |
| Classifier.ThresholdsPartition | sound_level_monitor.py:24-29 | With the reference table, each reading in [-100, 10) lies in exactly one interval, and that interval's tier is the classification |
| Classifier.ClassifyThresholds | sound_level_monitor.py:54-59 | For every reading, classification by the reference table equals the band-by-band definition `ReferenceTier` |
| Classifier.BoundariesGoUp | sound_level_monitor.py:57 | Boundary readings go to the upper tier: -100 gives quiet, -40 moderate, -20 loud, -10 very loud, and 10 falls back to quiet |
| Classifier.OutOfRangeIsQuiet | sound_level_monitor.py:56-59 | Readings below -100, or at 10 and above, classify as quiet |
| Sampler.FailedCaptureIsQuiet | sound_level_monitor.py:49-51 | A failed capture reads as the sentinel -100 dB, which classifies as quiet |
| Tracker.LevelTracker.constructor | sound_level_monitor.py:91 | Monitoring starts with no level observed |
| Tracker.LevelTracker.Observe | sound_level_monitor.py:99-104 | Reports a change exactly when the level differs from the stored one (so always on the first call); afterwards the stored level is the observed one |
| Tracker.ChangePointsSpec | sound_level_monitor.py:93-104 | The transition positions are exactly the positions whose tier differs from the previous one, with position 0 counting. They are strictly increasing, at most one per tick, and start at 0 when any tick exists |
| Tracker.ChangePointsSnoc | sound_level_monitor.py:99-104 | One more observation adds its position to the transitions exactly when it is the first observation or differs from the last one |
| Tracker.SteadyLevelChangesOnce | sound_level_monitor.py:99-104 | Observing the same tier n > 0 times gives exactly one transition, at position 0 |
| Wallpaper.Lower | sound_level_monitor.py:77 | Lower-casing keeps the length, maps each character by ASCII lower-casing, and leaves no upper-case letter |
| Wallpaper.LowerConcat | sound_level_monitor.py:77 | Lower-casing distributes over concatenation |
| Wallpaper.LowerIdempotent | sound_level_monitor.py:77 | Lower-casing twice equals lower-casing once |
| Wallpaper.ExtensionAnyCase | sound_level_monitor.py:77 | Any stem followed by `.jpg`, `.jpeg` or `.png` in any mix of cases is accepted |
| Wallpaper.UpperCaseExample | sound_level_monitor.py:77 | `IMG.JPG` is accepted |
| Wallpaper.OtherFileExample | sound_level_monitor.py:77 | `a.png.txt` is rejected: only the name's ending counts |
| Wallpaper.SameCaseInsensitively | sound_level_monitor.py:77 | Names equal up to case are accepted or rejected together |
| Wallpaper.Candidates | sound_level_monitor.py:77 | The filter keeps exactly the listed names whose lower-cased form ends in an image extension, and is no longer than the listing |
| Wallpaper.CandidatesAppend | sound_level_monitor.py:77 | Filtering a concatenated listing concatenates the filtered parts, so listing order is kept |
| Wallpaper.PickWallpaper | sound_level_monitor.py:77-81 | Returns nothing exactly when no listed name has an image extension; otherwise it returns one of the kept names |
| Monitor.LoggedChanges | sound_level_monitor.py:99-104 | If the first tick reports a change and each later tick reports one exactly when its tier differs from the previous tick's, the reports are exactly the transitions of the captures' tiers |
| Monitor.FiredMatches | sound_level_monitor.py:93-104 | If ticks report changes exactly at the transitions, then the reported positions equal `ChangePoints`, so the number of events is the number of transitions |
| Monitor.LoggedSnoc | sound_level_monitor.py:94-104 | Appending one more capture's tick to a log keeps it a log, provided the tick records its capture and reports a change exactly when it is the first tick or its tier differs from the last logged tier |
| Monitor.LoggedSpec | sound_level_monitor.py:93-104 | In a log of the captures' ticks, each tick holds its capture's reading and tier, and the change reports are exactly the transitions of the captures' tiers. Their positions equal `ChangePoints`, and every wallpaper decision fits its folder |
| Monitor.Dispatch | sound_level_monitor.py:99-103 | A wallpaper is chosen only on a change and always comes from the tier's folder. On a change it is missing exactly when the folder holds no image |
| Monitor.Step | sound_level_monitor.py:94-104 | One tick records the capture's reading and tier and a fitting wallpaper decision. It reports a change exactly when the tier differs from the tracker's stored tier, and leaves the tracker holding the new tier |
| Monitor.Run | sound_level_monitor.py:91-106 | Over a finite tick sequence starting from no level, each tick logs its reading and tier, and its change flag holds exactly at the transitions. The reported positions equal `ChangePoints` of the tiers, and every wallpaper decision fits its folder |
| Monitor.LevelsByReference | sound_level_monitor.py:94-95 | With the reference table, the tier sequence of any captures equals the band-by-band tiers of their readings |
| Monitor.ScenarioLevels | sound_level_monitor.py:94-95 | Readings -50, -50, -15, -5, -5, -45 classify as quiet, quiet, loud, very loud, very loud, quiet |
| Monitor.ScenarioTransitions | sound_level_monitor.py:99-104 | Those tiers have transitions at positions 0, 2, 3 and 5 |
| Monitor.Scenario | sound_level_monitor.py:91-104 | The tiers of the scenario's readings have exactly four transitions, at positions 0, 2, 3 and 5 |
| Monitor.ScenarioRun | sound_level_monitor.py:91-106 | The loop run with the reference table over the scenario's six readings logs six ticks and reports changes at ticks 0, 2, 3 and 5, whatever the folders hold |

## Left out

- Audio capture with `sd.rec` and `sd.wait` (sound_level_monitor.py:42-43) is device I/O. A capture is an input of type `Capture`: either a reading or a failure.
- The RMS, the epsilon clamp and `20 * log10` (sound_level_monitor.py:44-47) are floating-point numerics. The decibel reading of a successful capture is an opaque `real`. An all-silent buffer would read -200 dB, which `OutOfRangeIsQuiet` classifies as quiet. The logarithm itself is not modelled.
- Python floats can be NaN and Dafny `real` cannot. In the source a NaN reading fails every comparison and falls back to quiet.
- `set_wallpaper` and its `ctypes` calls into the Windows API (sound_level_monitor.py:62-71) are foreign calls. The model records the chosen file as the tick's `wallpaper`, and the error it catches is not modelled.
- `os.listdir` (sound_level_monitor.py:77) reads the file system. Each tier's folder listing is the input `folders(tier)`, and it stays fixed for the whole run.
- Monitor.Dispatch: a listing always exists for each tier. In the source, `os.listdir` (sound_level_monitor.py:77) is not inside a `try`. A missing or unreadable folder raises out of `get_random_wallpaper` and out of `main` (sound_level_monitor.py:101); that error path is not modelled.
- Monitor.Run: logs a tick for every capture. In the source the loop ends at the first change into a tier whose folder listing raises (sound_level_monitor.py:77, 101); this early stop is not modelled.
- `BASE_PATH` and `WALLPAPER_PATHS` (sound_level_monitor.py:13-21) are not modelled: the four folder paths only name the directories whose listings are inputs.
- Wallpaper.PickWallpaper: returns the chosen file name rather than `os.path.join(folder, name)` (sound_level_monitor.py:81). The joined path is never empty, so the caller's truthiness test `if wallpaper_path:` is true exactly when a name was chosen.
- Wallpaper.PickWallpaper: the pick is some kept name; the uniform distribution of `random.choice` is not modelled.
- Wallpaper.Lower: lower-cases ASCII letters only. Python's `str.lower` also maps other Unicode letters, so non-ASCII names that differ only in case may be treated differently.
- The console output (`print`), `time.sleep(CHECK_INTERVAL)`, the unbounded `while True` and its stop by Ctrl+C (sound_level_monitor.py:88-89, 93, 97, 100, 106) are left out. `Run` covers any finite prefix of the ticks.
