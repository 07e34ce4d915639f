/**
 * The unit test's three-record fixture and what its three tests assert,
 * as facts about the model. The fixture's timestamps are clock readings and
 * are left as parameters.
 */
module Scenario {
  import opened Wrappers
  import opened PitStopModel
  import opened Stats
  import opened Text
  import ListScreen

  /** `sampleList()`: Hamilton OK at 2.35, Verstappen failed at 2.10, Leclerc OK at 2.60. */
  function SampleList(t1: int, t2: int, t3: int): (s: seq<PitStop>)
    ensures |s| == 3
    ensures s[0].id == 1 && s[1].id == 2 && s[2].id == 3
  {
    [ PitStop(1, "Lewis Hamilton", "Mercedes", 2.35, "Soft", 4, STATUS_OK, None, "Juan", t1),
      PitStop(2, "Max Verstappen", "Red Bull", 2.10, "Medium", 4, STATUS_FAILED, Some("Tuerca"), "Ana", t2),
      PitStop(3, "Charles Leclerc", "Ferrari", 2.60, "Hard", 4, STATUS_OK, None, "Luis", t3) ]
  }

  /** The records of a three-record list that `c` keeps, one by one. */
  function Kept(p: PitStop, c: Criterion): seq<PitStop>
  {
    if Matches(c, p) then [p] else []
  }

  lemma FilterOfThree(a: PitStop, b: PitStop, d: PitStop, c: Criterion)
    ensures Filter([a, b, d], c) == Kept(a, c) + Kept(b, c) + Kept(d, c)
  {
    calc {
      Filter([a, b, d], c);
      { assert [a, b, d] == [a] + [b, d]; FilterCons(a, [b, d], c); }
      Kept(a, c) + Filter([b, d], c);
      { assert [b, d] == [b] + [d]; FilterCons(b, [d], c); }
      Kept(a, c) + (Kept(b, c) + Filter([d], c));
      { assert [d] == [d] + []; FilterCons(d, [], c); }
      Kept(a, c) + (Kept(b, c) + (Kept(d, c) + []));
      { assert Kept(d, c) + [] == Kept(d, c); }
      Kept(a, c) + Kept(b, c) + Kept(d, c);
    }
  }

  /** The test's status filter (`equals("OK", true)`) and the app's exact one agree on the fixture. */
  lemma IgnoreCaseStatusAgrees(t1: int, t2: int, t3: int)
    ensures Filter(SampleList(t1, t2, t3), StatusIgnoreCase(STATUS_OK))
         == Filter(SampleList(t1, t2, t3), StatusIs(STATUS_OK))
         == [SampleList(t1, t2, t3)[0], SampleList(t1, t2, t3)[2]]
    ensures Filter(SampleList(t1, t2, t3), StatusIgnoreCase(STATUS_FAILED))
         == Filter(SampleList(t1, t2, t3), StatusIs(STATUS_FAILED))
         == [SampleList(t1, t2, t3)[1]]
  {
    var s := SampleList(t1, t2, t3);
    assert s == [s[0], s[1], s[2]];
    FilterOfThree(s[0], s[1], s[2], StatusIgnoreCase(STATUS_OK));
    FilterOfThree(s[0], s[1], s[2], StatusIs(STATUS_OK));
    FilterOfThree(s[0], s[1], s[2], StatusIgnoreCase(STATUS_FAILED));
    FilterOfThree(s[0], s[1], s[2], StatusIs(STATUS_FAILED));
    assert !EqualsIgnoreCase(s[1].estado, STATUS_OK);
    assert EqualsIgnoreCase(s[0].estado, STATUS_OK) && EqualsIgnoreCase(s[2].estado, STATUS_OK);
    assert !EqualsIgnoreCase(s[0].estado, STATUS_FAILED) && !EqualsIgnoreCase(s[2].estado, STATUS_FAILED);
    assert EqualsIgnoreCase(s[1].estado, STATUS_FAILED);
  }

  /** Test 1: the fastest "OK" record is Hamilton's, id 1 at 2.35; the faster failed stop is left out. */
  lemma FastestOkIsHamilton(t1: int, t2: int, t3: int)
    ensures var fastest := MinByTime(Filter(SampleList(t1, t2, t3), StatusIgnoreCase(STATUS_OK)));
      fastest.Some? && fastest.value.id == 1 && fastest.value.tiempoSegundos == 2.35
    ensures MinByTime(SampleList(t1, t2, t3)).value.id == 2
  {
    var s := SampleList(t1, t2, t3);
    IgnoreCaseStatusAgrees(t1, t2, t3);
    var ok := [s[0], s[2]];
    assert ok[1..] == [s[2]];
    assert MinIndex(ok) == 0;
    assert s[1..][1..] == [s[2]];
    assert MinIndex(s) == 1;
  }

  /** Test 2: the mean "OK" time is (2.35 + 2.60) / 2 = 2.475. */
  lemma AverageOkIs2475(t1: int, t2: int, t3: int)
    ensures MeanTimeOrZero(Filter(SampleList(t1, t2, t3), StatusIgnoreCase(STATUS_OK))) == 2.475
  {
    var s := SampleList(t1, t2, t3);
    IgnoreCaseStatusAgrees(t1, t2, t3);
    var ok := [s[0], s[2]];
    assert ok[1..] == [s[2]] && [s[2]][1..] == [];
    assert SumTimes([s[2]]) == 2.60;
    assert SumTimes(ok) == 4.95;
  }

  /** Test 2, second half: the failed-only subset has no "OK" record, so its mean is exactly 0.0. */
  lemma FailedOnlyAverageIsZero(t1: int, t2: int, t3: int)
    ensures var onlyFailed := Filter(SampleList(t1, t2, t3), StatusIgnoreCase(STATUS_FAILED));
      && Filter(onlyFailed, StatusIgnoreCase(STATUS_OK)) == []
      && MeanTimeOrZero(Filter(onlyFailed, StatusIgnoreCase(STATUS_OK))) == 0.0
  {
    var s := SampleList(t1, t2, t3);
    IgnoreCaseStatusAgrees(t1, t2, t3);
    assert [s[1]][1..] == [];
    assert !EqualsIgnoreCase(s[1].estado, STATUS_OK);
  }

  /** Test 3, first half: searching "leW" finds exactly Hamilton's record. */
  lemma SearchLewFindsHamilton(t1: int, t2: int, t3: int)
    ensures var found := Filter(SampleList(t1, t2, t3), PilotContains("leW"));
      |found| == 1 && found[0].piloto == "Lewis Hamilton"
  {
    var s := SampleList(t1, t2, t3);
    var c := PilotContains("leW");
    assert Kept(s[0], c) == [s[0]] by {
      assert MatchesAt(s[0].piloto, "leW", 0);
    }
    assert Kept(s[1], c) == [] by {
      NoLewIn(s[1].piloto);
    }
    assert Kept(s[2], c) == [] by {
      NoLewIn(s[2].piloto);
    }
    assert s == [s[0], s[1], s[2]];
    FilterOfThree(s[0], s[1], s[2], c);
  }

  /** A name without a 'w' (in either case) does not contain "leW". */
  lemma NoLewIn(name: string)
    requires forall i :: 0 <= i < |name| ==> LowerAscii(name[i]) != 'w'
    ensures !ContainsIgnoreCase(name, "leW")
  {
    forall i | 0 <= i <= |name|
      ensures !MatchesAt(name, "leW", i)
    {
      if i + 3 <= |name| {
        assert name[i..i + 3][2] == name[i + 2];
      }
    }
  }

  /**
   * `list.removeIf { it.id == id }`: removes every record with the id and
   * reports whether there was one.
   */
  method RemoveIf(xs: seq<PitStop>, id: int) returns (removed: bool, ys: seq<PitStop>)
    ensures ys == Filter(xs, IdIsNot(id))
    ensures removed <==> exists i :: 0 <= i < |xs| && xs[i].id == id
    ensures removed <==> |ys| < |xs|
    ensures forall p :: p in ys ==> p.id != id
  {
    removed := false;
    ys := [];
    var n := 0;
    while n < |xs|
      invariant 0 <= n <= |xs|
      invariant ys == Filter(xs[..n], IdIsNot(id))
      invariant removed <==> exists i :: 0 <= i < n && xs[i].id == id
    {
      FilterSnoc(xs, n, IdIsNot(id));
      HasIdSnoc(xs, n, id);
      if xs[n].id == id {
        removed := true;
      } else {
        ys := ys + [xs[n]];
      }
      n := n + 1;
    }
    assert xs[..n] == xs;
    ShorterIffSomeHasId(xs, id);
  }

  /** A record of the id is among the first n + 1 exactly when it is among the first n or is the next one. */
  lemma HasIdSnoc(xs: seq<PitStop>, n: nat, id: int)
    requires n < |xs|
    ensures (exists i :: 0 <= i < n + 1 && xs[i].id == id)
        <==> (exists i :: 0 <= i < n && xs[i].id == id) || xs[n].id == id
  {
  }

  /** Filtering out an id shortens the list exactly when some record has it. */
  lemma ShorterIffSomeHasId(xs: seq<PitStop>, id: int)
    ensures |Filter(xs, IdIsNot(id))| < |xs| <==> exists i :: 0 <= i < |xs| && xs[i].id == id
  {
    FilterKeepsAll(xs, IdIsNot(id));
  }

  /** Extending the scanned prefix by one record extends its filter by that record when it matches. */
  lemma FilterSnoc(xs: seq<PitStop>, n: nat, c: Criterion)
    requires n < |xs|
    ensures Filter(xs[..n + 1], c) == Filter(xs[..n], c) + (if Matches(c, xs[n]) then [xs[n]] else [])
  {
    assert xs[..n + 1] == xs[..n] + [xs[n]];
    FilterConcat(xs[..n], [xs[n]], c);
    assert [xs[n]][1..] == [];
  }

  /** `firstOrNull { it.id == id }`: the first record with the id, if any. */
  function FirstWithId(s: seq<PitStop>, id: int): (r: Option<PitStop>)
    ensures r.None? <==> forall p :: p in s ==> p.id != id
    ensures r.Some? ==> r.value in s && r.value.id == id
    ensures r.Some? ==> exists k :: 0 <= k < |s| && s[k] == r.value && forall j :: 0 <= j < k ==> s[j].id != id
  {
    if s == [] then None
    else if s[0].id == id then Some(s[0])
    else
      var r := FirstWithId(s[1..], id);
      assert forall p :: p in s ==> p == s[0] || p in s[1..];
      r
  }

  /**
   * Test 3, second half: removing id 3 reports a removal, leaves two records
   * and none with id 3.
   */
  method RemoveIdThree(t1: int, t2: int, t3: int) returns (removed: bool, size: nat, stillThere: Option<PitStop>)
    ensures removed && size == 2 && stillThere.None?
  {
    var list := SampleList(t1, t2, t3);
    var rest;
    removed, rest := RemoveIf(list, 3);
    assert list == [list[0], list[1], list[2]];
    FilterOfThree(list[0], list[1], list[2], IdIsNot(3));
    size := |rest|;
    stillThere := FirstWithId(rest, 3);
  }

  /**
   * `removeIf` removes every match, the list screen's deletion only the
   * first; with at most one record of the id the two agree.
   */
  lemma RemoveAllMatchesRemoveFirstWhenUnique(s: seq<PitStop>, id: int)
    requires forall j :: 0 <= j < |s| && s[j].id == id ==> j == ListScreen.IndexOfFirstId(s, id)
    ensures Filter(s, IdIsNot(id)) == ListScreen.RemoveFirstWithId(s, id)
  {
    var k := ListScreen.IndexOfFirstId(s, id);
    if k == -1 {
      FilterKeepsAll(s, IdIsNot(id));
    } else {
      FilterDropsAt(s, k, IdIsNot(id));
    }
  }

  /** Filtering out the one record, at `k`, that fails `c` leaves the records around it, in order. */
  lemma {:induction false} FilterDropsAt(s: seq<PitStop>, k: nat, c: Criterion)
    requires k < |s| && !Matches(c, s[k])
    requires forall j :: 0 <= j < |s| && j != k ==> Matches(c, s[j])
    ensures Filter(s, c) == s[..k] + s[k + 1..]
  {
    var tail := s[1..];
    assert s == [s[0]] + tail;
    if k == 0 {
      calc {
        Filter(s, c);
        { FilterCons(s[0], tail, c); }
        Filter(tail, c);
        { TailMatches(s, k, c); FilterKeepsAll(tail, c); }
        tail;
        s[..k] + s[k + 1..];
      }
    } else {
      calc {
        Filter(s, c);
        { FilterCons(s[0], tail, c); }
        [s[0]] + Filter(tail, c);
        { TailMatches(s, k, c); FilterDropsAt(tail, k - 1, c); }
        [s[0]] + (tail[..k - 1] + tail[k..]);
        { SplitAfterHead(s, k); }
        s[..k] + s[k + 1..];
      }
    }
  }

  /** The tail of `s` matches everywhere except, when `k > 0`, at `k - 1`. */
  lemma TailMatches(s: seq<PitStop>, k: nat, c: Criterion)
    requires 0 < |s| && k < |s|
    requires forall j :: 0 <= j < |s| && j != k ==> Matches(c, s[j])
    ensures forall j :: 0 <= j < |s| - 1 && j + 1 != k ==> Matches(c, s[1..][j])
  {
    forall j | 0 <= j < |s| - 1 && j + 1 != k
      ensures Matches(c, s[1..][j])
    {
      assert s[1..][j] == s[j + 1];
    }
  }

  /** Cutting position `k` out of `s` is cutting `k - 1` out of its tail, behind the head. */
  lemma SplitAfterHead<T>(s: seq<T>, k: nat)
    requires 0 < k < |s|
    ensures [s[0]] + (s[1..][..k - 1] + s[1..][k..]) == s[..k] + s[k + 1..]
  {
    assert s[1..][..k - 1] == s[1..k] && s[1..][k..] == s[k + 1..];
    assert [s[0]] + s[1..k] == s[..k];
  }

  /** With a repeated id the two differ: `removeIf` drops both records, deletion only the first. */
  lemma RemoveAllDiffersOnSharedId(p: PitStop)
    ensures Filter([p, p], IdIsNot(p.id)) == []
    ensures ListScreen.RemoveFirstWithId([p, p], p.id) == [p]
  {
    assert [p, p][1..] == [p] && [p][1..] == [];
  }
}
