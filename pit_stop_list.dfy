/**
 * The list screen (`PitStopListActivity` and `PitStopListScreen`): a working
 * copy of the home list that the user searches and deletes from, returned in
 * full when the screen closes.
 */
module ListScreen {
  import opened Wrappers
  import opened PitStopModel
  import opened Stats
  import opened Text
  import Home

  /**
   * `s.indexOfFirst { it.id == id }`: the position of the first record with
   * that id, or -1 when there is none.
   */
  function IndexOfFirstId(s: seq<PitStop>, id: int): (r: int)
    ensures -1 <= r < |s|
    ensures r == -1 <==> forall i :: 0 <= i < |s| ==> s[i].id != id
    ensures r >= 0 ==> s[r].id == id && forall j :: 0 <= j < r ==> s[j].id != id
  {
    if |s| == 0 then -1
    else if s[0].id == id then 0
    else
      var r := IndexOfFirstId(s[1..], id);
      assert forall j :: 1 <= j < |s| ==> s[j] == s[1..][j - 1];
      if r == -1 then -1 else r + 1
  }

  /** What a deletion leaves: the list without its first record of that id, or the list itself. */
  function RemoveFirstWithId(s: seq<PitStop>, id: int): seq<PitStop>
  {
    var k := IndexOfFirstId(s, id);
    if k == -1 then s else s[..k] + s[k + 1..]
  }

  /**
   * When some record has the id, deletion removes exactly the first one: one
   * record fewer, the records before and after it kept in order, one record
   * with that id fewer, and every other record still there as often as before.
   */
  lemma RemoveFirstWithIdFound(s: seq<PitStop>, id: int)
    requires exists i :: 0 <= i < |s| && s[i].id == id
    ensures var k := IndexOfFirstId(s, id);
      && 0 <= k < |s| && s[k].id == id
      && RemoveFirstWithId(s, id) == s[..k] + s[k + 1..]
      && |RemoveFirstWithId(s, id)| == |s| - 1
      && multiset(RemoveFirstWithId(s, id)) + multiset{s[k]} == multiset(s)
    ensures |Filter(RemoveFirstWithId(s, id), IdIs(id))| == |Filter(s, IdIs(id))| - 1
  {
    var k := IndexOfFirstId(s, id);
    CutOut(s, k);
    OneFewerWithId(s, id, k);
  }

  /** Cutting out position `k` leaves one element fewer: the one at `k`. */
  lemma CutOut<T>(s: seq<T>, k: nat)
    requires k < |s|
    ensures |s[..k] + s[k + 1..]| == |s| - 1
    ensures multiset(s[..k] + s[k + 1..]) + multiset{s[k]} == multiset(s)
  {
    assert s == s[..k] + [s[k]] + s[k + 1..];
  }

  /** Cutting out a record of the id leaves one record of that id fewer. */
  lemma OneFewerWithId(s: seq<PitStop>, id: int, k: nat)
    requires k < |s| && s[k].id == id
    ensures |Filter(s[..k] + s[k + 1..], IdIs(id))| == |Filter(s, IdIs(id))| - 1
  {
    var c := IdIs(id);
    var pre, post := s[..k], s[k + 1..];
    assert s == pre + [s[k]] + post;
    calc {
      |Filter(s, c)|;
      { FilterConcat(pre + [s[k]], post, c); FilterConcat(pre, [s[k]], c); }
      |Filter(pre, c) + Filter([s[k]], c) + Filter(post, c)|;
      { FilterCons(s[k], [], c); assert [s[k]] == [s[k]] + []; }
      |Filter(pre, c)| + 1 + |Filter(post, c)|;
      { FilterConcat(pre, post, c); }
      |Filter(pre + post, c)| + 1;
    }
  }

  /**
   * Deletion matches by id alone: when records at positions i < j share an id
   * and i is its first position, deleting the record at j removes the one at i.
   */
  lemma DeleteSharedIdRemovesEarliest(s: seq<PitStop>, i: nat, j: nat)
    requires i < j < |s| && s[i].id == s[j].id
    requires forall k :: 0 <= k < i ==> s[k].id != s[i].id
    ensures RemoveFirstWithId(s, s[j].id) == s[..i] + s[i + 1..]
    ensures s[j] in RemoveFirstWithId(s, s[j].id)
  {
    assert (s[..i] + s[i + 1..])[j - 1] == s[j];
  }

  /** The screen's search: the records (of the displayed copy) whose pilot contains the query, ignoring case. */
  function FilteredList(lista: seq<PitStop>, query: string): (r: seq<PitStop>)
    ensures forall p :: p in r <==> p in lista && ContainsIgnoreCase(p.piloto, query)
  {
    Filter(lista, PilotContains(query))
  }

  /** An empty query keeps every record, in order. */
  lemma FilteredListEmptyQuery(lista: seq<PitStop>)
    ensures FilteredList(lista, "") == lista
  {
    forall i | 0 <= i < |lista| ensures Matches(PilotContains(""), lista[i]) {
      ContainsEmpty(lista[i].piloto);
    }
    FilterKeepsAll(lista, PilotContains(""));
  }

  /** Searching preserves order: the filtered view of a concatenation is the concatenation of the views. */
  lemma FilteredListKeepsOrder(a: seq<PitStop>, b: seq<PitStop>, query: string)
    ensures FilteredList(a + b, query) == FilteredList(a, query) + FilteredList(b, query)
  {
    FilterConcat(a, b, PilotContains(query));
  }

  /** The activity's `pitStopsList` and the screen's displayed copy `lista`. */
  class ListActivity {
    var pitStopsList: seq<PitStop>
    var lista: seq<PitStop>

    /** `onCreate`: the list handed over by the home screen, or an empty list when none came. */
    constructor (extra: Option<seq<PitStop>>)
      ensures pitStopsList == extra.GetOr([])
      ensures lista == pitStopsList
    {
      pitStopsList := extra.GetOr([]);
      lista := pitStopsList;
    }

    /**
     * `deletePitStop`: finds the first record with the target's id; when there
     * is one it is removed from the working list and the displayed copy is
     * refreshed, otherwise nothing changes and "not found" is reported.
     */
    method DeletePitStop(target: PitStop) returns (found: bool)
      modifies this
      ensures found <==> exists i :: 0 <= i < |old(pitStopsList)| && old(pitStopsList)[i].id == target.id
      ensures pitStopsList == RemoveFirstWithId(old(pitStopsList), target.id)
      ensures found ==> |pitStopsList| == |old(pitStopsList)| - 1 && lista == pitStopsList
      ensures !found ==> pitStopsList == old(pitStopsList) && lista == old(lista)
    {
      var indexToRemove := IndexOfFirstId(pitStopsList, target.id);
      if indexToRemove != -1 {
        pitStopsList := pitStopsList[..indexToRemove] + pitStopsList[indexToRemove + 1..];
        lista := pitStopsList;
        found := true;
      } else {
        found := false;
      }
    }

    /** `onVolver`: closes the screen with a successful result carrying the whole working list. */
    method OnVolver() returns (resultCode: int, updated: seq<PitStop>)
      ensures resultCode == Home.RESULT_OK
      ensures updated == pitStopsList
    {
      resultCode := Home.RESULT_OK;
      updated := pitStopsList;
    }

    /** `resultLauncher`: a successful result carrying a list replaces the working list; the displayed copy is not refreshed. */
    method OnResult(resultCode: int, updated: Option<seq<PitStop>>)
      modifies this`pitStopsList
      ensures resultCode == Home.RESULT_OK && updated.Some? ==> pitStopsList == updated.value
      ensures !(resultCode == Home.RESULT_OK && updated.Some?) ==> pitStopsList == old(pitStopsList)
    {
      if resultCode == Home.RESULT_OK && updated.Some? {
        pitStopsList := [];
        pitStopsList := pitStopsList + updated.value;
      }
    }
  }

  /**
   * A whole visit: the home list is handed to the list screen, one record is
   * deleted there, and the returned list replaces the home list. The home
   * list ends as the deletion left the working copy, whatever was searched.
   */
  method VisitAndDelete(home: Home.HomeStore, target: PitStop) returns (found: bool)
    modifies home
    ensures home.pitStops == RemoveFirstWithId(old(home.pitStops), target.id)
    ensures home.statisticsUpdateTrigger == Home.WrappingIncrement(old(home.statisticsUpdateTrigger))
  {
    var snapshot := home.Snapshot();
    var screen := new ListActivity(Some(snapshot));
    found := screen.DeletePitStop(target);
    var code, updated := screen.OnVolver();
    home.OnListResult(code, Some(updated));
  }
}
