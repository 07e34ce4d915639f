/**
 * The per-pilot screen (`PilotStatsScreen`): the records of one pilot, their
 * counts, fastest and mean "OK" time, success percentage and the history
 * newest first.
 */
module PilotStats {
  import opened Wrappers
  import opened PitStopModel
  import opened Stats
  import opened Text
  import Home

  /** The records of a pilot: equal names ignoring case, in the original order. */
  function PilotPitStops(pitStops: seq<PitStop>, pilotName: string): (r: seq<PitStop>)
    ensures forall p :: p in r <==> p in pitStops && EqualsIgnoreCase(p.piloto, pilotName)
  {
    Filter(pitStops, PilotIs(pilotName))
  }

  /** Descending by timestamp. */
  predicate SortedNewestFirst(s: seq<PitStop>)
  {
    forall i, j :: 0 <= i < j < |s| ==> s[i].fechaHora >= s[j].fechaHora
  }

  /** Places `x` before the first record that is not newer than it. */
  function InsertNewestFirst(x: PitStop, s: seq<PitStop>): (r: seq<PitStop>)
    ensures multiset(r) == multiset(s) + multiset{x}
    ensures r[0] == if |s| == 0 || x.fechaHora >= s[0].fechaHora then x else s[0]
  {
    if |s| == 0 then [x]
    else if x.fechaHora >= s[0].fechaHora then [x] + s
    else
      assert s == [s[0]] + s[1..];
      [s[0]] + InsertNewestFirst(x, s[1..])
  }

  /** Inserting into a newest-first list keeps it newest first. */
  lemma {:induction false} InsertKeepsSorted(x: PitStop, s: seq<PitStop>)
    requires SortedNewestFirst(s)
    ensures SortedNewestFirst(InsertNewestFirst(x, s))
  {
    if |s| > 0 && x.fechaHora < s[0].fechaHora {
      InsertKeepsSorted(x, s[1..]);
      PrependNewest(s[0], InsertNewestFirst(x, s[1..]));
    }
  }

  /** A record no older than the head of a newest-first list can go in front of it. */
  lemma PrependNewest(h: PitStop, s: seq<PitStop>)
    requires SortedNewestFirst(s)
    requires |s| > 0 ==> s[0].fechaHora <= h.fechaHora
    ensures SortedNewestFirst([h] + s)
  {
  }

  /** `s.sortedByDescending { it.fechaHora }`: the same records, newest first, a stable sort. */
  function SortedByTimestampDescending(s: seq<PitStop>): (r: seq<PitStop>)
    ensures SortedNewestFirst(r)
    ensures multiset(r) == multiset(s)
    ensures |r| == |s|
  {
    if |s| == 0 then []
    else
      assert s == [s[0]] + s[1..];
      InsertKeepsSorted(s[0], SortedByTimestampDescending(s[1..]));
      InsertNewestFirst(s[0], SortedByTimestampDescending(s[1..]))
  }

  /** Inserting keeps the records of every timestamp in order, the inserted one first among its equals. */
  lemma {:induction false} InsertKeepsEqualsInOrder(x: PitStop, s: seq<PitStop>, t: int)
    ensures Filter(InsertNewestFirst(x, s), TimestampIs(t))
         == (if x.fechaHora == t then [x] else []) + Filter(s, TimestampIs(t))
  {
    var c := TimestampIs(t);
    var pre := Filter([x], c);
    assert pre == if x.fechaHora == t then [x] else [] by {
      assert [x][1..] == [];
    }
    if |s| == 0 || x.fechaHora >= s[0].fechaHora {
      assert InsertNewestFirst(x, s) == [x] + s;
      FilterConcat([x], s, c);
    } else {
      var rest := InsertNewestFirst(x, s[1..]);
      var head := Filter([s[0]], c);
      assert head == [] || pre == [] by {
        assert [s[0]][1..] == [];
      }
      calc {
        Filter(InsertNewestFirst(x, s), c);
        { assert InsertNewestFirst(x, s) == [s[0]] + rest; FilterConcat([s[0]], rest, c); }
        head + Filter(rest, c);
        { InsertKeepsEqualsInOrder(x, s[1..], t); }
        head + (pre + Filter(s[1..], c));
        { SwapEmpty(head, pre, Filter(s[1..], c)); }
        pre + (head + Filter(s[1..], c));
        { assert s == [s[0]] + s[1..]; FilterConcat([s[0]], s[1..], c); }
        pre + Filter(s, c);
      }
    }
  }

  /** Two sequences of which one is empty commute in front of a third. */
  lemma SwapEmpty<T>(a: seq<T>, b: seq<T>, rest: seq<T>)
    requires a == [] || b == []
    ensures a + (b + rest) == b + (a + rest)
  {
    if a == [] {
      assert a + (b + rest) == b + rest == b + (a + rest);
    } else {
      assert a + (b + rest) == a + rest == b + (a + rest);
    }
  }

  /**
   * The sort is stable: the records of any one timestamp appear in the
   * history in the order they had in the pilot's list.
   */
  lemma {:induction false} SortIsStable(s: seq<PitStop>, t: int)
    ensures Filter(SortedByTimestampDescending(s), TimestampIs(t)) == Filter(s, TimestampIs(t))
  {
    if |s| > 0 {
      SortIsStable(s[1..], t);
      InsertKeepsEqualsInOrder(s[0], SortedByTimestampDescending(s[1..]), t);
    }
  }

  /** What the screen shows once it has records for the pilot. */
  datatype PilotStatsView =
    | NoData
    | Summary(totalPitStops: nat, successful: nat, failed: nat, fastestTime: Option<real>,
              averageTime: real, successRate: real, history: seq<PitStop>)

  /**
   * The statistics block: "no data" exactly when the pilot has no record,
   * otherwise the figures of the pilot's records.
   */
  function PilotStatsScreen(pitStops: seq<PitStop>, pilotName: string): (v: PilotStatsView)
    ensures v.NoData? <==> PilotPitStops(pitStops, pilotName) == []
    ensures v.Summary? ==> v.totalPitStops == |PilotPitStops(pitStops, pilotName)| > 0
  {
    var pilotPitStops := PilotPitStops(pitStops, pilotName);
    if pilotPitStops == [] then NoData else Summarize(pilotPitStops)
  }

  /** The figures of a non-empty list of one pilot's records. */
  function Summarize(pilotPitStops: seq<PitStop>): (v: PilotStatsView)
    requires pilotPitStops != []
    ensures v.Summary? && v.totalPitStops == |pilotPitStops|
  {
    var totalPitStops := |pilotPitStops|;
    var successfulPitStops := Filter(pilotPitStops, StatusIs(STATUS_OK));
    var failedPitStops := Filter(pilotPitStops, StatusIs(STATUS_FAILED));
    var fastest := FastestMatching(pilotPitStops, StatusIs(STATUS_OK));
    Summary(totalPitStops, |successfulPitStops|, |failedPitStops|,
            if fastest.Some? then Some(fastest.value.tiempoSegundos) else None,
            MeanTimeOrZero(successfulPitStops),
            SuccessRate(|successfulPitStops|, totalPitStops),
            SortedByTimestampDescending(pilotPitStops))
  }

  /** The counts: exact "OK" and exact "Fallido" records of the pilot, together at most the total. */
  lemma PilotCounts(pitStops: seq<PitStop>, pilotName: string)
    requires PilotStatsScreen(pitStops, pilotName).Summary?
    ensures var v := PilotStatsScreen(pitStops, pilotName);
      var mine := PilotPitStops(pitStops, pilotName);
      && v.successful == |Filter(mine, StatusIs(STATUS_OK))|
      && v.failed == |Filter(mine, StatusIs(STATUS_FAILED))|
      && v.successful + v.failed <= v.totalPitStops
  {
    StatusCountsBounded(PilotPitStops(pitStops, pilotName));
  }

  /** The fastest time: none exactly when the pilot has no "OK" record, else the smallest "OK" time, attained by one. */
  lemma PilotFastest(pitStops: seq<PitStop>, pilotName: string)
    requires PilotStatsScreen(pitStops, pilotName).Summary?
    ensures var v := PilotStatsScreen(pitStops, pilotName);
      var mine := PilotPitStops(pitStops, pilotName);
      && (v.fastestTime.None? <==> v.successful == 0)
      && (v.fastestTime.Some? ==>
            (forall p :: p in mine && p.estado == STATUS_OK ==> v.fastestTime.value <= p.tiempoSegundos)
            && exists p :: p in mine && p.estado == STATUS_OK && p.tiempoSegundos == v.fastestTime.value)
  {
    var mine := PilotPitStops(pitStops, pilotName);
    var ok := Filter(mine, StatusIs(STATUS_OK));
    assert ok != [] ==> ok[0] in ok;
  }

  /** The average: the mean of the pilot's "OK" times (0.0 without one), never below the fastest of them. */
  lemma PilotAverage(pitStops: seq<PitStop>, pilotName: string)
    requires PilotStatsScreen(pitStops, pilotName).Summary?
    ensures var v := PilotStatsScreen(pitStops, pilotName);
      && v.averageTime == MeanTimeOrZero(Filter(PilotPitStops(pitStops, pilotName), StatusIs(STATUS_OK)))
      && (v.fastestTime.Some? ==> v.fastestTime.value <= v.averageTime)
  {
    var mine := PilotPitStops(pitStops, pilotName);
    var ok := Filter(mine, StatusIs(STATUS_OK));
    var v := PilotStatsScreen(pitStops, pilotName);
    if v.fastestTime.Some? {
      var lo := v.fastestTime.value;
      assert lo == FastestMatching(mine, StatusIs(STATUS_OK)).value.tiempoSegundos;
      forall i | 0 <= i < |ok|
        ensures lo <= ok[i].tiempoSegundos
      {
        assert ok[i] in ok;
      }
      MeanAtLeast(ok, lo);
    }
  }

  /** The success rate: the percentage of "OK" records among the pilot's, within [0, 100]. */
  lemma PilotSuccessRate(pitStops: seq<PitStop>, pilotName: string)
    requires PilotStatsScreen(pitStops, pilotName).Summary?
    ensures var v := PilotStatsScreen(pitStops, pilotName);
      && v.successRate == SuccessRate(v.successful, v.totalPitStops)
      && 0.0 <= v.successRate <= 100.0
  {
    PilotCounts(pitStops, pilotName);
  }

  /**
   * The history: the pilot's records, newest first, and among records with
   * the same timestamp in their original order.
   */
  lemma PilotHistory(pitStops: seq<PitStop>, pilotName: string, t: int)
    requires PilotStatsScreen(pitStops, pilotName).Summary?
    ensures var v := PilotStatsScreen(pitStops, pilotName);
      var mine := PilotPitStops(pitStops, pilotName);
      && SortedNewestFirst(v.history)
      && multiset(v.history) == multiset(mine)
      && Filter(v.history, TimestampIs(t)) == Filter(mine, TimestampIs(t))
  {
    SortIsStable(PilotPitStops(pitStops, pilotName), t);
  }

  /**
   * `getPilotTeam`: the team of each of the five known pilots (exact,
   * case-sensitive match), "Unknown" otherwise.
   */
  function GetPilotTeam(pilotName: string): (team: string)
    ensures pilotName !in Home.PILOTS ==> team == "Unknown"
    ensures pilotName in Home.PILOTS ==> team != "Unknown"
    ensures pilotName == "Max Verstappen" ==> team == "Red Bull Racing"
  {
    match pilotName
    case "Lewis Hamilton" => "Mercedes"
    case "Max Verstappen" => "Red Bull Racing"
    case "Charles Leclerc" => "Ferrari"
    case "Lando Norris" => "McLaren"
    case "Fernando Alonso" => "Aston Martin"
    case _ => "Unknown"
  }

  /**
   * The team this screen shows and the team the home screen's pilot cards
   * show agree for every name except Max Verstappen's.
   */
  lemma TeamsAgreeExceptVerstappen(pilotName: string)
    ensures GetPilotTeam(pilotName) == Home.HomeTeam(pilotName) <==> pilotName != "Max Verstappen"
  {
  }

  /** The team lookup is case-sensitive: a pilot name in lower case is not recognised. */
  lemma TeamLookupIsCaseSensitive()
    ensures GetPilotTeam("lewis hamilton") == "Unknown"
    ensures EqualsIgnoreCase("lewis hamilton", "Lewis Hamilton")
  {
  }
}
