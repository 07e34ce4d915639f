/**
 * The home screen (`MainActivity`): the session's authoritative list of pit
 * stops, the two result handlers that merge back what the form and the list
 * screens return, the update counter, and the figures the home screen shows.
 */
module Home {
  import opened Wrappers
  import opened PitStopModel
  import opened Stats
  import opened Text

  /** Android's `Activity.RESULT_OK`. */
  const RESULT_OK: int := -1

  /** Kotlin's `Int`. */
  newtype Int32 = x: int | -0x8000_0000 <= x < 0x8000_0000

  /** `x++` on a Kotlin `Int`: one more, wrapping from the largest value to the smallest. */
  function WrappingIncrement(x: Int32): (r: Int32)
    ensures x < 0x7fff_ffff ==> r as int == x as int + 1
    ensures x == 0x7fff_ffff ==> r as int == -0x8000_0000
  {
    if x == 0x7fff_ffff then -0x8000_0000 else x + 1
  }

  /** The activity's state: the `pitStops` list and `statisticsUpdateTrigger`. */
  class HomeStore {
    var pitStops: seq<PitStop>
    var statisticsUpdateTrigger: Int32

    constructor ()
      ensures pitStops == [] && statisticsUpdateTrigger == 0
    {
      pitStops := [];
      statisticsUpdateTrigger := 0;
    }

    /** `updateStatistics()`: bumps the counter the home screen watches. */
    method UpdateStatistics()
      modifies this`statisticsUpdateTrigger
      ensures statisticsUpdateTrigger == WrappingIncrement(old(statisticsUpdateTrigger))
    {
      statisticsUpdateTrigger := WrappingIncrement(statisticsUpdateTrigger);
    }

    /**
     * The form's result handler (`launcher`): a successful result carrying a
     * record appends it unchanged (its id is not assigned) and bumps the
     * counter; any other result changes nothing.
     */
    method OnFormResult(resultCode: int, pit: Option<PitStop>)
      modifies this
      ensures resultCode == RESULT_OK && pit.Some? ==>
        pitStops == old(pitStops) + [pit.value]
        && statisticsUpdateTrigger == WrappingIncrement(old(statisticsUpdateTrigger))
      ensures !(resultCode == RESULT_OK && pit.Some?) ==>
        pitStops == old(pitStops) && statisticsUpdateTrigger == old(statisticsUpdateTrigger)
    {
      if resultCode == RESULT_OK {
        if pit.Some? {
          pitStops := pitStops + [pit.value];
          UpdateStatistics();
        }
      }
    }

    /**
     * The list screen's result handler (`listLauncher`): a successful result
     * carrying a list replaces the contents (`clear` then `addAll`) and bumps
     * the counter; any other result changes nothing.
     */
    method OnListResult(resultCode: int, updated: Option<seq<PitStop>>)
      modifies this
      ensures resultCode == RESULT_OK && updated.Some? ==>
        pitStops == updated.value
        && statisticsUpdateTrigger == WrappingIncrement(old(statisticsUpdateTrigger))
      ensures !(resultCode == RESULT_OK && updated.Some?) ==>
        pitStops == old(pitStops) && statisticsUpdateTrigger == old(statisticsUpdateTrigger)
    {
      if resultCode == RESULT_OK {
        if updated.Some? {
          pitStops := [];
          pitStops := pitStops + updated.value;
          UpdateStatistics();
        }
      }
    }

    /** The copy (`ArrayList(pitStops)`) handed to the list screen. */
    method Snapshot() returns (copy: seq<PitStop>)
      ensures copy == pitStops
    {
      copy := pitStops;
    }
  }

  /**
   * `getFastestPitStop()`: none exactly when no record is "OK"; otherwise an
   * "OK" record of the list that no "OK" record beats, and the first such one.
   */
  function GetFastestPitStop(pitStops: seq<PitStop>): (r: Option<PitStop>)
    ensures r.None? <==> forall p :: p in pitStops ==> p.estado != STATUS_OK
    ensures r.Some? ==> r.value in pitStops && r.value.estado == STATUS_OK
    ensures r.Some? ==> forall p :: p in pitStops && p.estado == STATUS_OK ==>
      r.value.tiempoSegundos <= p.tiempoSegundos
    ensures r.Some? ==>
      exists k :: 0 <= k < |pitStops| && pitStops[k] == r.value
                  && forall j :: 0 <= j < k && pitStops[j].estado == STATUS_OK ==>
                                   pitStops[j].tiempoSegundos > r.value.tiempoSegundos
  {
    var r := FastestMatching(pitStops, StatusIs(STATUS_OK));
    assert r.Some? ==> exists k :: 0 <= k < |pitStops| && pitStops[k] == r.value
                                    && IsFirstAmongMatching(pitStops, StatusIs(STATUS_OK), k);
    r
  }

  /** `getAverageTime()`: the mean of the "OK" times, exactly 0.0 when there is none. */
  function GetAverageTime(pitStops: seq<PitStop>): (r: real)
    ensures (forall p :: p in pitStops ==> p.estado != STATUS_OK) ==> r == 0.0
    ensures var ok := Filter(pitStops, StatusIs(STATUS_OK));
      |ok| > 0 ==> r == SumTimes(ok) / (|ok| as real)
  {
    var ok := Filter(pitStops, StatusIs(STATUS_OK));
    assert ok != [] ==> ok[0] in ok;
    MeanTimeOrZero(ok)
  }

  /** `getTotalPitStops()`: the list's size. */
  function GetTotalPitStops(pitStops: seq<PitStop>): nat
  {
    |pitStops|
  }

  /** For valid records the total is the number of OK stops plus the number of failed ones. */
  lemma TotalIsOkPlusFailed(pitStops: seq<PitStop>)
    requires AllValid(pitStops)
    ensures GetTotalPitStops(pitStops)
      == |Filter(pitStops, StatusIs(STATUS_OK))| + |Filter(pitStops, StatusIs(STATUS_FAILED))|
  {
    StatusCountsBounded(pitStops);
  }

  /** The OK average lies between the fastest OK time and any upper bound of the OK times. */
  lemma AverageBetweenFastestAndSlowest(pitStops: seq<PitStop>, slowest: real)
    requires GetFastestPitStop(pitStops).Some?
    requires forall p :: p in pitStops && p.estado == STATUS_OK ==> p.tiempoSegundos <= slowest
    ensures GetFastestPitStop(pitStops).value.tiempoSegundos <= GetAverageTime(pitStops) <= slowest
  {
    var ok := Filter(pitStops, StatusIs(STATUS_OK));
    var lo := GetFastestPitStop(pitStops).value.tiempoSegundos;
    assert forall i :: 0 <= i < |ok| ==> ok[i] in ok;
    assert GetFastestPitStop(pitStops).value in ok;
    MeanWithinBounds(ok, lo, slowest);
  }

  /**
   * The summary card's fastest stop (`pitStops.minByOrNull`): over every
   * record, whatever its status; none only for an empty list.
   */
  function SummaryFastest(pitStops: seq<PitStop>): (r: Option<PitStop>)
    ensures r.None? <==> |pitStops| == 0
    ensures r.Some? ==> exists k :: IsFirstMinimum(pitStops, k) && pitStops[k] == r.value
  {
    MinByTime(pitStops)
  }

  /** The summary card's average: over every record, whatever its status; 0.0 for an empty list. */
  function SummaryAverage(pitStops: seq<PitStop>): (r: real)
    ensures |pitStops| == 0 ==> r == 0.0
    ensures |pitStops| > 0 ==> r * (|pitStops| as real) == SumTimes(pitStops)
  {
    MeanTimeOrZero(pitStops)
  }

  /** The summary ignores status: a failed record faster than every OK one is the summary's fastest. */
  lemma SummaryCountsFailedStops(pitStops: seq<PitStop>)
    requires |pitStops| > 0
    ensures SummaryFastest(pitStops).value.tiempoSegundos <= SummaryAverage(pitStops)
    ensures GetFastestPitStop(pitStops).Some? ==>
      SummaryFastest(pitStops).value.tiempoSegundos <= GetFastestPitStop(pitStops).value.tiempoSegundos
    ensures (exists i :: 0 <= i < |pitStops| && pitStops[i].estado != STATUS_OK
               && forall j :: 0 <= j < |pitStops| && pitStops[j].estado == STATUS_OK ==>
                    pitStops[i].tiempoSegundos < pitStops[j].tiempoSegundos)
            ==> SummaryFastest(pitStops) != GetFastestPitStop(pitStops)
  {
    MeanAtLeastFastest(pitStops);
    var k := MinIndex(pitStops);
    assert SummaryFastest(pitStops).value == pitStops[k];
    if GetFastestPitStop(pitStops).Some? {
      var f := GetFastestPitStop(pitStops).value;
      var j :| 0 <= j < |pitStops| && pitStops[j] == f;
      if exists i :: 0 <= i < |pitStops| && pitStops[i].estado != STATUS_OK
           && forall j :: 0 <= j < |pitStops| && pitStops[j].estado == STATUS_OK ==>
                pitStops[i].tiempoSegundos < pitStops[j].tiempoSegundos
      {
        var i :| 0 <= i < |pitStops| && pitStops[i].estado != STATUS_OK
           && forall j :: 0 <= j < |pitStops| && pitStops[j].estado == STATUS_OK ==>
                pitStops[i].tiempoSegundos < pitStops[j].tiempoSegundos;
        assert pitStops[k].tiempoSegundos <= pitStops[i].tiempoSegundos < f.tiempoSegundos;
      }
    }
  }

  /** The recent stops the home screen lists and charts: `pitStops.takeLast(5)`. */
  function RecentPitStops(pitStops: seq<PitStop>): (r: seq<PitStop>)
    ensures |r| == if |pitStops| < 5 then |pitStops| else 5
    ensures pitStops == pitStops[..|pitStops| - |r|] + r
  {
    TakeLast(pitStops, 5)
  }

  /** A record appended by the form handler is the last of the recent stops. */
  lemma AppendedIsMostRecent(pitStops: seq<PitStop>, pit: PitStop)
    ensures RecentPitStops(pitStops + [pit]) == TakeLast(pitStops, 4) + [pit]
  {
    TakeLastAfterAppend(pitStops, pit, 5);
  }

  /** The five pilots the home screen summarises, in display order. */
  const PILOTS: seq<string> := ["Lewis Hamilton", "Max Verstappen", "Charles Leclerc", "Lando Norris", "Fernando Alonso"]

  /** The team `getPilotData` shows for a pilot (exact match). */
  function HomeTeam(name: string): string
  {
    match name
    case "Lewis Hamilton" => "Mercedes"
    case "Max Verstappen" => "Red Bull"
    case "Charles Leclerc" => "Ferrari"
    case "Lando Norris" => "McLaren"
    case "Fernando Alonso" => "Aston Martin"
    case _ => "Unknown"
  }

  /** One pilot's summary card (colour and icon are presentation and left out). */
  datatype PilotData = PilotData(name: string, team: string, totalPitStops: nat,
                                 successfulPitStops: nat, fastestTime: Option<real>)

  /**
   * The summary for one pilot: the records whose pilot equals the name
   * ignoring case, how many of them are "OK", and the fastest "OK" time (none
   * exactly when the pilot has no "OK" record).
   */
  function PilotDataFor(pitStops: seq<PitStop>, name: string): (d: PilotData)
    ensures d.name == name && d.team == HomeTeam(name)
    ensures d.totalPitStops == |Filter(pitStops, PilotIs(name))|
    ensures d.successfulPitStops == |Filter(Filter(pitStops, PilotIs(name)), StatusIs(STATUS_OK))|
    ensures d.successfulPitStops <= d.totalPitStops
    ensures d.fastestTime.None? <==>
      forall p :: p in pitStops && EqualsIgnoreCase(p.piloto, name) ==> p.estado != STATUS_OK
    ensures d.fastestTime.Some? ==>
      (exists p :: p in pitStops && EqualsIgnoreCase(p.piloto, name) && p.estado == STATUS_OK
                   && p.tiempoSegundos == d.fastestTime.value)
      && forall p :: p in pitStops && EqualsIgnoreCase(p.piloto, name) && p.estado == STATUS_OK ==>
           d.fastestTime.value <= p.tiempoSegundos
  {
    var pilotPitStops := Filter(pitStops, PilotIs(name));
    var successful := Filter(pilotPitStops, StatusIs(STATUS_OK));
    var fastest := FastestMatching(pilotPitStops, StatusIs(STATUS_OK));
    PilotData(name, HomeTeam(name), |pilotPitStops|, |successful|,
              if fastest.Some? then Some(fastest.value.tiempoSegundos) else None)
  }

  /** `getPilotData(pitStops)`: exactly one summary per pilot, in the fixed order. */
  function GetPilotData(pitStops: seq<PitStop>): (r: seq<PilotData>)
    ensures |r| == |PILOTS| == 5
    ensures forall i :: 0 <= i < |r| ==> r[i] == PilotDataFor(pitStops, PILOTS[i])
    ensures forall i :: 0 <= i < |r| ==> r[i].name == PILOTS[i] && r[i].successfulPitStops <= r[i].totalPitStops
  {
    seq(|PILOTS|, i requires 0 <= i < |PILOTS| => PilotDataFor(pitStops, PILOTS[i]))
  }
}
