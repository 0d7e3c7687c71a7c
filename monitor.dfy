/**
  The monitoring loop, run over a finite sequence of ticks: each tick takes a
  capture, classifies its reading with the threshold table, feeds the tier to
  the transition tracker and, on a transition, picks a wallpaper for the new
  tier from that tier's folder listing.
 */
module Monitor {
  import opened Wrappers
  import opened Classifier
  import opened Sampler
  import opened Tracker
  import opened Wallpaper

  /** What one tick did: the reading, its tier, whether the tier changed, and
      the wallpaper applied (none when the tier did not change or its folder
      held no image). */
  datatype Tick = Tick(db: real, level: Tier, changed: bool, wallpaper: Option<string>)

  /** The tier of one capture under a threshold table. */
  function LevelOf(table: Table, c: Capture): Tier {
    Classify(table, Reading(c))
  }

  /** The tiers of a sequence of captures, tick by tick. */
  function LevelsOf(table: Table, captures: seq<Capture>): seq<Tier> {
    seq(|captures|, i requires 0 <= i < |captures| => LevelOf(table, captures[i]))
  }

  /** A log whose first tick reports a change and whose later ticks report
      one exactly when their tier differs from the previous tick's reports
      precisely the transitions of the captures' tiers. */
  lemma LoggedChanges(table: Table, captures: seq<Capture>, log: seq<Tick>)
    requires |log| == |captures|
    requires forall k :: 0 <= k < |log| ==> log[k].level == LevelOf(table, captures[k])
    requires |log| > 0 ==> log[0].changed
    requires forall k :: 0 < k < |log| ==> (log[k].changed <==> log[k].level != log[k - 1].level)
    ensures forall k :: 0 <= k < |log| ==> (log[k].changed <==> IsChangeAt(LevelsOf(table, captures), k))
  {
    var levels := LevelsOf(table, captures);
    forall k | 0 <= k < |log|
      ensures log[k].changed <==> IsChangeAt(levels, k)
    {
      if k > 0 {
        assert levels[k] == log[k].level && levels[k - 1] == log[k - 1].level;
      }
    }
  }

  /** The positions of a log at which the tracker reported a change. */
  function Fired(log: seq<Tick>): seq<nat> {
    if log == [] then []
    else
      var n := |log| - 1;
      Fired(log[..n]) + (if log[n].changed then [n] else [])
  }

  /** When each tick reports a change exactly at the transitions of `levels`,
      the reported changes are the transitions of `levels`: as many events as
      positions whose tier differs from the one before. */
  lemma {:induction false} FiredMatches(levels: seq<Tier>, log: seq<Tick>)
    requires |log| == |levels|
    requires forall k :: 0 <= k < |log| ==> (log[k].changed <==> IsChangeAt(levels, k))
    ensures Fired(log) == ChangePoints(levels)
  {
    if log != [] {
      var n := |log| - 1;
      var prefix := levels[..n];
      forall k | 0 <= k < n
        ensures log[..n][k].changed <==> IsChangeAt(prefix, k)
      {
        assert k > 0 ==> prefix[k] == levels[k] && prefix[k - 1] == levels[k - 1];
      }
      FiredMatches(prefix, log[..n]);
    }
  }

  /** A tick's wallpaper decision fits its folder: a wallpaper is set only
      on a transition and is always one of the folder's image files, and on
      a transition it is missing exactly when the folder has no image file. */
  predicate WallpaperFits(level: Tier, changed: bool, wallpaper: Option<string>, folders: Tier -> seq<string>) {
    && (wallpaper.Some? ==> changed && wallpaper.value in Candidates(folders(level)))
    && (changed ==> (wallpaper.None? <==> Candidates(folders(level)) == []))
  }

  /** The action taken after the tracker has been fed: on a transition, look
      for a wallpaper in the new tier's folder; otherwise do nothing. */
  method Dispatch(level: Tier, changed: bool, folders: Tier -> seq<string>) returns (wallpaper: Option<string>)
    ensures WallpaperFits(level, changed, wallpaper, folders)
  {
    wallpaper := None;
    if changed {
      wallpaper := PickWallpaper(folders(level));
    }
  }

  /** What a tick records for one capture: its reading, its tier, and a
      wallpaper decision that fits the tier's folder. */
  predicate Recorded(table: Table, folders: Tier -> seq<string>, capture: Capture, tick: Tick) {
    && tick.db == Reading(capture)
    && tick.level == LevelOf(table, capture)
    && WallpaperFits(tick.level, tick.changed, tick.wallpaper, folders)
  }

  /** One tick of the loop: read the capture, classify it, feed the tier to
      the tracker and dispatch on a transition. */
  method Step(table: Table, tracker: LevelTracker, capture: Capture, folders: Tier -> seq<string>) returns (tick: Tick)
    modifies tracker
    ensures Recorded(table, folders, capture, tick)
    ensures tick.changed <==> old(tracker.lastLevel) != Some(tick.level)
    ensures tracker.lastLevel == Some(tick.level)
  {
    var db := Reading(capture);
    var level := Classify(table, db);
    var changed := tracker.Observe(level);
    var wallpaper := Dispatch(level, changed, folders);
    tick := Tick(db, level, changed, wallpaper);
  }

  /** A log of ticks for `captures`: one tick per capture, each recording its
      capture, the first reporting a change and each later one reporting a
      change exactly when its tier differs from the tick before. */
  predicate Logged(table: Table, folders: Tier -> seq<string>, captures: seq<Capture>, log: seq<Tick>) {
    && |log| == |captures|
    && (forall k :: 0 <= k < |log| ==> Recorded(table, folders, captures[k], log[k]))
    && (|log| > 0 ==> log[0].changed)
    && (forall k :: 0 < k < |log| ==> (log[k].changed <==> log[k].level != log[k - 1].level))
  }

  /** Appending the tick of one more capture to a log keeps it a log, when
      the tick reports a change exactly when its tier differs from the last
      logged one. */
  lemma LoggedSnoc(table: Table, folders: Tier -> seq<string>, captures: seq<Capture>, log: seq<Tick>, capture: Capture, tick: Tick)
    requires Logged(table, folders, captures, log)
    requires Recorded(table, folders, capture, tick)
    requires tick.changed <==> (log == [] || log[|log| - 1].level != tick.level)
    ensures Logged(table, folders, captures + [capture], log + [tick])
  {
    var extended, more := log + [tick], captures + [capture];
    assert forall k :: 0 <= k < |log| ==> extended[k] == log[k] && more[k] == captures[k];
  }

  /** What a log of the captures' ticks says: each tick holds its capture's
      reading and tier, the change reports are exactly the transitions of the
      captures' tiers, and every wallpaper decision fits its folder. */
  lemma LoggedSpec(table: Table, folders: Tier -> seq<string>, captures: seq<Capture>, log: seq<Tick>)
    requires Logged(table, folders, captures, log)
    ensures forall i :: 0 <= i < |log| ==> log[i].db == Reading(captures[i]) && log[i].level == LevelOf(table, captures[i])
    ensures forall i :: 0 <= i < |log| ==> (log[i].changed <==> IsChangeAt(LevelsOf(table, captures), i))
    ensures forall i :: 0 <= i < |log| ==> WallpaperFits(log[i].level, log[i].changed, log[i].wallpaper, folders)
    ensures Fired(log) == ChangePoints(LevelsOf(table, captures))
  {
    LoggedChanges(table, captures, log);
    FiredMatches(LevelsOf(table, captures), log);
  }

  /** Runs the loop over `captures` with threshold table `table` (the
      reference table `Thresholds` in the deployed configuration), starting
      with no tier observed, and returns the log of ticks. The ticks that
      report a change are exactly the transitions of the captures' tiers. */
  method Run(table: Table, captures: seq<Capture>, folders: Tier -> seq<string>) returns (log: seq<Tick>)
    ensures |log| == |captures|
    ensures forall i :: 0 <= i < |log| ==> log[i].db == Reading(captures[i]) && log[i].level == LevelOf(table, captures[i])
    ensures forall i :: 0 <= i < |log| ==> (log[i].changed <==> IsChangeAt(LevelsOf(table, captures), i))
    ensures forall i :: 0 <= i < |log| ==> WallpaperFits(log[i].level, log[i].changed, log[i].wallpaper, folders)
    ensures Fired(log) == ChangePoints(LevelsOf(table, captures))
  {
    var tracker := new LevelTracker();
    log := [];
    var i := 0;
    while i < |captures|
      invariant 0 <= i <= |captures|
      invariant Logged(table, folders, captures[..i], log)
      invariant tracker.lastLevel == if i == 0 then None else Some(log[i - 1].level)
    {
      var tick := Step(table, tracker, captures[i], folders);
      LoggedSnoc(table, folders, captures[..i], log, captures[i], tick);
      assert captures[..i + 1] == captures[..i] + [captures[i]];
      log := log + [tick];
      i := i + 1;
    }
    assert captures[..i] == captures;
    LoggedSpec(table, folders, captures, log);
  }

  /** The readings of the worked scenario. */
  const ScenarioCaptures: seq<Capture> :=
    [Captured(-50.0), Captured(-50.0), Captured(-15.0), Captured(-5.0), Captured(-5.0), Captured(-45.0)]

  /** Under the reference table, each capture's tier is the band-by-band
      tier of its reading. */
  lemma LevelsByReference(captures: seq<Capture>)
    ensures LevelsOf(Thresholds, captures) == seq(|captures|, i requires 0 <= i < |captures| => ReferenceTier(Reading(captures[i])))
  {
    forall i | 0 <= i < |captures| {
      ClassifyThresholds(Reading(captures[i]));
    }
  }

  /** Readings -50, -50, -15, -5, -5, -45 classify as quiet, quiet, loud,
      very loud, very loud, quiet under the reference table. */
  lemma ScenarioLevels()
    ensures LevelsOf(Thresholds, ScenarioCaptures) == [Quiet, Quiet, Loud, VeryLoud, VeryLoud, Quiet]
  {
    LevelsByReference(ScenarioCaptures);
  }

  /** Those tiers have four transitions, at positions 0, 2, 3 and 5. */
  lemma ScenarioTransitions()
    ensures ChangePoints([Quiet, Quiet, Loud, VeryLoud, VeryLoud, Quiet]) == [0, 2, 3, 5]
  {
    var t: seq<Tier> := [];
    assert ChangePoints(t) == [];
    ChangePointsSnoc(t, Quiet);
    t := t + [Quiet];
    assert ChangePoints(t) == [0];
    ChangePointsSnoc(t, Quiet);
    t := t + [Quiet];
    assert ChangePoints(t) == [0];
    ChangePointsSnoc(t, Loud);
    t := t + [Loud];
    assert ChangePoints(t) == [0, 2];
    ChangePointsSnoc(t, VeryLoud);
    t := t + [VeryLoud];
    assert ChangePoints(t) == [0, 2, 3];
    ChangePointsSnoc(t, VeryLoud);
    t := t + [VeryLoud];
    assert ChangePoints(t) == [0, 2, 3];
    ChangePointsSnoc(t, Quiet);
    t := t + [Quiet];
    assert t == [Quiet, Quiet, Loud, VeryLoud, VeryLoud, Quiet];
  }

  /** The tiers of the scenario's readings have four transitions, at
      positions 0, 2, 3 and 5; `ScenarioRun` carries them over to the loop. */
  lemma Scenario()
    ensures ChangePoints(LevelsOf(Thresholds, ScenarioCaptures)) == [0, 2, 3, 5]
    ensures |ChangePoints(LevelsOf(Thresholds, ScenarioCaptures))| == 4
  {
    ScenarioLevels();
    ScenarioTransitions();
  }

  /** The loop itself, run with the reference table over the scenario's
      readings, reports its changes at ticks 0, 2, 3 and 5, whatever the
      folders hold. */
  method ScenarioRun(folders: Tier -> seq<string>) returns (log: seq<Tick>)
    ensures |log| == 6
    ensures Fired(log) == [0, 2, 3, 5]
  {
    log := Run(Thresholds, ScenarioCaptures, folders);
    Scenario();
  }
}
