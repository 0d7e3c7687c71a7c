/**
  The level classifier: maps a decibel reading to a loudness tier by scanning an
  ordered threshold table for the first half-open interval [low, high) that
  contains the reading, and falls back to the quiet tier when none does.
 */
module Classifier {

  /** The loudness tiers the monitor distinguishes. */
  datatype Tier = Quiet | Moderate | Loud | VeryLoud

  /** One row of the threshold table: a tier and its interval [low, high). */
  datatype Threshold = Threshold(tier: Tier, low: real, high: real)

  /** A threshold table, in configuration (dictionary insertion) order. */
  type Table = seq<Threshold>

  /** The tier returned when no interval of the table contains the reading. */
  const Fallback: Tier := Quiet

  /** The reference configuration: quiet [-100, -40), moderate [-40, -20),
      loud [-20, -10), very loud [-10, 10). */
  const Thresholds: Table := [
    Threshold(Quiet, -100.0, -40.0),
    Threshold(Moderate, -40.0, -20.0),
    Threshold(Loud, -20.0, -10.0),
    Threshold(VeryLoud, -10.0, 10.0)
  ]

  /** The half-open membership test: low <= db < high. */
  predicate Contains(t: Threshold, db: real) {
    t.low <= db < t.high
  }

  /** The classifier: the tier of the first row containing `db`, else the fallback.
      It is total: every reading gets a tier, either the fallback or the tier
      of some row whose interval holds the reading. */
  function Classify(table: Table, db: real): (level: Tier)
    ensures level == Fallback || exists k :: 0 <= k < |table| && table[k].tier == level && Contains(table[k], db)
  {
    if |table| == 0 then Fallback
    else if Contains(table[0], db) then table[0].tier
    else
      var rest := Classify(table[1..], db);
      assert rest != Fallback ==> exists k :: 0 <= k < |table| && table[k].tier == rest && Contains(table[k], db) by {
        if rest != Fallback {
          var k :| 0 <= k < |table[1..]| && table[1..][k].tier == rest && Contains(table[1..][k], db);
          assert table[k + 1] == table[1..][k];
        }
      }
      rest
  }

  /** First match wins: the row at index k decides the tier when it contains
      the reading and no earlier row does, even if later rows overlap it. */
  lemma {:induction false} ClassifyFirstMatch(table: Table, db: real, k: nat)
    requires k < |table| && Contains(table[k], db)
    requires forall j :: 0 <= j < k ==> !Contains(table[j], db)
    ensures Classify(table, db) == table[k].tier
  {
    if k > 0 {
      assert !Contains(table[0], db);
      assert forall j :: 0 <= j < k - 1 ==> table[1..][j] == table[j + 1];
      ClassifyFirstMatch(table[1..], db, k - 1);
    }
  }

  /** A reading that no row contains is classified as the fallback tier. */
  lemma {:induction false} ClassifyNoMatch(table: Table, db: real)
    requires forall j :: 0 <= j < |table| ==> !Contains(table[j], db)
    ensures Classify(table, db) == Fallback
  {
    if |table| > 0 {
      assert !Contains(table[0], db);
      assert forall j :: 0 <= j < |table| - 1 ==> table[1..][j] == table[j + 1];
      ClassifyNoMatch(table[1..], db);
    }
  }

  /** Every row is a non-empty interval and each one starts where the previous one ends. */
  predicate Contiguous(table: Table) {
    && (forall i :: 0 <= i < |table| ==> table[i].low < table[i].high)
    && (forall i :: 0 <= i < |table| - 1 ==> table[i].high == table[i + 1].low)
  }

  /** In a contiguous table, a later row starts no lower than an earlier row ends. */
  lemma {:induction false} ContiguousOrdered(table: Table, i: nat, j: nat)
    requires Contiguous(table) && i < j < |table|
    ensures table[i].high <= table[j].low
    decreases j - i
  {
    if j > i + 1 {
      ContiguousOrdered(table, i, j - 1);
    }
  }

  /** A contiguous table has no overlapping rows. */
  lemma ContiguousDisjoint(table: Table, db: real, i: nat, j: nat)
    requires Contiguous(table) && i < |table| && j < |table|
    requires Contains(table[i], db) && Contains(table[j], db)
    ensures i == j
  {
    if i < j {
      ContiguousOrdered(table, i, j);
    } else if j < i {
      ContiguousOrdered(table, j, i);
    }
  }

  /** A contiguous table covers [first low, last high) without gaps: the
      returned row contains the reading. */
  lemma {:induction false} ContiguousCovers(table: Table, db: real) returns (k: nat)
    requires Contiguous(table) && |table| > 0
    requires table[0].low <= db < table[|table| - 1].high
    ensures k < |table| && Contains(table[k], db)
  {
    if db < table[0].high {
      k := 0;
    } else {
      var rest := table[1..];
      assert forall i :: 0 <= i < |rest| ==> rest[i] == table[i + 1];
      assert Contiguous(rest);
      var k' := ContiguousCovers(rest, db);
      k := k' + 1;
    }
  }

  /** The reference table is contiguous over [-100, 10). */
  lemma ThresholdsContiguous()
    ensures Contiguous(Thresholds)
    ensures Thresholds[0].low == -100.0 && Thresholds[|Thresholds| - 1].high == 10.0
  {
  }

  /** With the reference table each reading in [-100, 10) lies in exactly one
      interval, and that interval's tier is the classification. */
  lemma ThresholdsPartition(db: real) returns (k: nat)
    requires -100.0 <= db < 10.0
    ensures k < |Thresholds| && Contains(Thresholds[k], db)
    ensures forall j :: 0 <= j < |Thresholds| && Contains(Thresholds[j], db) ==> j == k
    ensures Classify(Thresholds, db) == Thresholds[k].tier
  {
    ThresholdsContiguous();
    k := ContiguousCovers(Thresholds, db);
    forall j | 0 <= j < |Thresholds| && Contains(Thresholds[j], db)
      ensures j == k
    {
      ContiguousDisjoint(Thresholds, db, j, k);
    }
    ClassifyFirstMatch(Thresholds, db, k);
  }

  /** An independent statement of the reference configuration, band by band. */
  function ReferenceTier(db: real): Tier {
    if -100.0 <= db < -40.0 then Quiet
    else if -40.0 <= db < -20.0 then Moderate
    else if -20.0 <= db < -10.0 then Loud
    else if -10.0 <= db < 10.0 then VeryLoud
    else Quiet
  }

  /** The table-driven classifier agrees with the band-by-band reading of the
      reference configuration on every input. */
  lemma ClassifyThresholds(db: real)
    ensures Classify(Thresholds, db) == ReferenceTier(db)
  {
    if -100.0 <= db < 10.0 {
      var k := ThresholdsPartition(db);
    } else {
      ClassifyNoMatch(Thresholds, db);
    }
  }

  /** Boundary readings belong to the upper tier, because intervals are
      closed below and open above. */
  lemma BoundariesGoUp()
    ensures Classify(Thresholds, -100.0) == Quiet
    ensures Classify(Thresholds, -40.0) == Moderate
    ensures Classify(Thresholds, -20.0) == Loud
    ensures Classify(Thresholds, -10.0) == VeryLoud
    ensures Classify(Thresholds, 10.0) == Quiet
  {
    ClassifyThresholds(-100.0);
    ClassifyThresholds(-40.0);
    ClassifyThresholds(-20.0);
    ClassifyThresholds(-10.0);
    ClassifyThresholds(10.0);
  }

  /** Readings outside every interval, below -100 or at 10 and above, fall
      back to quiet. */
  lemma OutOfRangeIsQuiet(db: real)
    requires db < -100.0 || db >= 10.0
    ensures Classify(Thresholds, db) == Quiet
  {
    ClassifyNoMatch(Thresholds, db);
  }
}
