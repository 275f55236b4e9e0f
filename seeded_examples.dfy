/**
 * What the endpoints answer on a store seeded from empty: the demo data
 * has one driver with high blood pressure and a poor, short night, and one
 * healthy driver with a good night.
 */
module SeededExamples {
  import opened Wrappers
  import opened Text
  import opened Seqs
  import opened Schemas
  import opened Store
  import opened Dashboard
  import opened Seeding

  /** Seeding an empty store fills every seeded collection with its two demo records. */
  lemma SeededFromEmpty(now: Timestamp, today: string)
    ensures Seeded(NoCollections, now, today) ==
      Collections([], SeedDrivers(), SeedDevices(), SeedHealth(now), SeedSleep(now, today), SeedEvents(now))
    ensures forall k :: k != UserKind ==> SizeOf(Seeded(NoCollections, now, today), k) == 2
  {
  }

  lemma SeededHighBp(now: Timestamp)
    ensures HighBpIndices(SeedHealth(now), DefaultThresholds) == {0}
  {
    var h := SeedHealth(now);
    assert h[0].bp_systolic == 145 && h[1].bp_systolic == 118 && h[1].bp_diastolic == 78;
  }

  lemma SeededSleepCounts(now: Timestamp, today: string)
    ensures TodayLowScoreIndices(SeedSleep(now, today), today, DefaultThresholds) == {0}
    ensures TodayShortSleepIndices(SeedSleep(now, today), today, DefaultThresholds) == {0}
  {
  }

  lemma SeededDeviceStatus()
    ensures OnlineIndices(SeedDevices()) == {0}
    ensures OfflineIndices(SeedDevices()) == {1}
  {
  }

  /** With the default thresholds, every count of the seeded summary is one. */
  lemma SeededSummary(now: Timestamp, today: string)
    ensures DashboardSummary(Seeded(NoCollections, now, today), today, DefaultThresholds) == Summary(1, 1, 1, 1, 1)
  {
    SeededFromEmpty(now, today);
    SeededHighBp(now);
    SeededSleepCounts(now, today);
    SeededDeviceStatus();
  }

  /** Budi Santoso (145/95) is not approved; Siti Aminah (118/78, score 82) is. */
  lemma SeededReadiness(now: Timestamp, today: string)
    ensures var rows := ReadinessRows(SeedHealth(now), SeedSleep(now, today));
      |rows| == 2 &&
      rows[0].driver_name == "Budi Santoso" && rows[0].status == "not approved" &&
      rows[1].driver_name == "Siti Aminah" && rows[1].status == "approved" && rows[1].last_sleep_score == Some(82)
  {
    var health, sleep := SeedHealth(now), SeedSleep(now, today);
    ReadinessRowFacts(health, sleep, 0);
    ReadinessRowFacts(health, sleep, 1);
    assert IsLastWith(sleep, SleepDriver, "DRV002", 1);
  }

  lemma LowerBudiSantoso()
    ensures Lower("Budi Santoso") == "budi santoso"
  {
    LowerFrom("Budi Santoso", "budi santoso");
  }

  lemma LowerSitiAminah()
    ensures Lower("Siti Aminah") == "siti aminah"
  {
    LowerFrom("Siti Aminah", "siti aminah");
  }

  lemma BudiPrefix()
    ensures Contains("budi", "budi santoso")
  {
    assert StartsWith("budi", "budi santoso");
  }

  lemma LowerBudi()
    ensures Lower("budi") == "budi"
  {
    LowerFrom("budi", "budi");
  }

  lemma BudiMatchesBudiSantoso()
    ensures ContainsIgnoringCase("budi", "Budi Santoso")
  {
    LowerBudiSantoso();
    LowerBudi();
    BudiPrefix();
  }

  lemma BudiNotInSitiAminah()
    ensures !Contains("budi", "siti aminah")
  {
    NoB("siti aminah");
  }

  lemma BudiDoesNotMatchSitiAminah()
    ensures !ContainsIgnoringCase("budi", "Siti Aminah")
  {
    LowerSitiAminah();
    LowerBudi();
    BudiNotInSitiAminah();
  }

  /** A string without the letter `b` does not contain "budi". */
  lemma NoB(s: string)
    requires forall i :: 0 <= i < |s| ==> s[i] != 'b'
    ensures !Contains("budi", s)
  {
    ContainsAt("budi", s);
    forall k | 0 <= k <= |s| - 4 ensures !OccursAt("budi", s, k) {
      assert s[k..k + 4][0] == s[k];
    }
  }

  lemma FilterPair<X(!new)>(a: X, b: X, p: X -> bool)
    requires p(a) && !p(b)
    ensures Filter([a, b], p) == [a]
  {
    assert [a, b][..1] == [a];
    assert [a][..0] == [];
  }

  /** A search keeps the first of two rows when only the first matches. */
  lemma SearchFirstOfTwo(rows: seq<ReadinessRow>, q: string)
    requires |rows| == 2 && q != ""
    requires ContainsIgnoringCase(q, rows[0].driver_name) && !ContainsIgnoringCase(q, rows[1].driver_name)
    ensures FilterReadinessByName(rows, Some(q)) == [rows[0]]
  {
    assert rows == [rows[0], rows[1]];
    FilterPair(rows[0], rows[1], ReadinessNameMatches(q));
  }

  /** Of the two drivers, searching for "budi" keeps Budi Santoso only. */
  lemma SearchBudi(rows: seq<ReadinessRow>)
    requires |rows| == 2 && rows[0].driver_name == "Budi Santoso" && rows[1].driver_name == "Siti Aminah"
    ensures FilterReadinessByName(rows, Some("budi")) == [rows[0]]
  {
    BudiMatchesBudiSantoso();
    BudiDoesNotMatchSitiAminah();
    SearchFirstOfTwo(rows, "budi");
  }

  /** Searching the seeded readiness table for "budi" keeps exactly Budi Santoso's row. */
  lemma SeededReadinessSearch(now: Timestamp, today: string)
    ensures var rows := ReadinessRows(SeedHealth(now), SeedSleep(now, today));
      FilterReadinessByName(rows, Some("budi")) == [rows[0]]
  {
    SeededReadiness(now, today);
    SearchBudi(ReadinessRows(SeedHealth(now), SeedSleep(now, today)));
  }

  /** Each seeded device shows the status of its own event and its own location. */
  lemma SeededMapPoints(now: Timestamp)
    ensures var points := MapPointsOf(SeedDevices(), SeedEvents(now));
      |points| == 2 &&
      points[0].device_id == "DEV-1001" && points[0].event == Some("Low Battery") &&
      points[0].address == Some("Jakarta") && points[0].lat == Some(-6.2) && points[0].lng == Some(106.82) &&
      points[1].device_id == "DEV-1002" && points[1].event == Some("SOS") &&
      points[1].address == Some("Jakarta") && points[1].lat == Some(-6.21) && points[1].lng == Some(106.85)
  {
    var es := SeedEvents(now);
    assert es[..1] == [es[0]];
    assert es[..1][..0] == [];
    assert LastBy(es[..1], EventDevice) == map["DEV-1001" := es[0]];
    assert LastBy(es, EventDevice) == LastBy(es[..1], EventDevice)["DEV-1002" := es[1]];
  }
}
