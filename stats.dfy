/**
 * The list expressions every screen repeats: `filter`, `minByOrNull` on the
 * time, `map { time }.average()` guarded by a 0.0 sentinel, the success
 * percentage and `takeLast`.
 */
module Stats {
  import opened Wrappers
  import opened PitStopModel
  import opened Text

  /** The filter conditions the screens and the unit test use. */
  datatype Criterion =
    | StatusIs(status: string)           // it.estado == status
    | StatusIgnoreCase(status: string)   // it.estado.equals(status, true)
    | PilotIs(name: string)              // it.piloto.equals(name, ignoreCase = true)
    | PilotContains(query: string)       // it.piloto.contains(query, ignoreCase = true)
    | TimestampIs(t: int)
    | IdIs(id: int)
    | IdIsNot(id: int)

  predicate Matches(c: Criterion, p: PitStop)
  {
    match c
    case StatusIs(st) => p.estado == st
    case StatusIgnoreCase(st) => EqualsIgnoreCase(p.estado, st)
    case PilotIs(name) => EqualsIgnoreCase(p.piloto, name)
    case PilotContains(q) => ContainsIgnoreCase(p.piloto, q)
    case TimestampIs(t) => p.fechaHora == t
    case IdIs(id) => p.id == id
    case IdIsNot(id) => p.id != id
  }

  /** `s.filter { Matches(c, it) }`: the matching records, and only those. */
  function Filter(s: seq<PitStop>, c: Criterion): (r: seq<PitStop>)
    ensures |r| <= |s|
    ensures forall p :: p in r <==> p in s && Matches(c, p)
  {
    if |s| == 0 then [] else (if Matches(c, s[0]) then [s[0]] else []) + Filter(s[1..], c)
  }

  /** One step of the filter: the head is kept exactly when it matches. */
  lemma FilterCons(h: PitStop, s: seq<PitStop>, c: Criterion)
    ensures Filter([h] + s, c) == (if Matches(c, h) then [h] else []) + Filter(s, c)
  {
    assert ([h] + s)[1..] == s;
  }

  /** Filtering distributes over concatenation, so it keeps the original order. */
  lemma {:induction false} FilterConcat(a: seq<PitStop>, b: seq<PitStop>, c: Criterion)
    ensures Filter(a + b, c) == Filter(a, c) + Filter(b, c)
  {
    if a == [] {
      assert a + b == b;
    } else {
      assert (a + b)[1..] == a[1..] + b;
      FilterConcat(a[1..], b, c);
    }
  }

  /** A filter removes nothing exactly when every record matches. */
  lemma {:induction false} FilterKeepsAll(s: seq<PitStop>, c: Criterion)
    ensures Filter(s, c) == s <==> forall i :: 0 <= i < |s| ==> Matches(c, s[i])
    ensures |Filter(s, c)| == |s| <==> forall i :: 0 <= i < |s| ==> Matches(c, s[i])
  {
    if s != [] {
      FilterKeepsAll(s[1..], c);
      assert forall i :: 1 <= i < |s| ==> s[i] == s[1..][i - 1];
      if !Matches(c, s[0]) {
        assert |Filter(s, c)| < |s|;
      }
    }
  }

  /** A filter keeps nothing exactly when no record matches. */
  lemma FilterEmpty(s: seq<PitStop>, c: Criterion)
    ensures Filter(s, c) == [] <==> forall i :: 0 <= i < |s| ==> !Matches(c, s[i])
  {
    if Filter(s, c) != [] {
      assert Filter(s, c)[0] in Filter(s, c);
    }
  }

  /** Filtering twice by the same condition changes nothing more. */
  lemma {:induction false} FilterIdempotent(s: seq<PitStop>, c: Criterion)
    ensures Filter(Filter(s, c), c) == Filter(s, c)
  {
    var r := Filter(s, c);
    assert forall i :: 0 <= i < |r| ==> r[i] in r;
    FilterKeepsAll(r, c);
  }

  /** `k` is the position of the first record whose time no other record beats. */
  predicate IsFirstMinimum(s: seq<PitStop>, k: int)
  {
    && 0 <= k < |s|
    && (forall j :: 0 <= j < |s| ==> s[k].tiempoSegundos <= s[j].tiempoSegundos)
    && (forall j :: 0 <= j < k ==> s[j].tiempoSegundos > s[k].tiempoSegundos)
  }

  /** The position `minByOrNull` ends on: a minimum, replaced only by a strictly smaller time. */
  function MinIndex(s: seq<PitStop>): (k: nat)
    requires |s| > 0
    ensures IsFirstMinimum(s, k)
  {
    if |s| == 1 then 0
    else
      var k := MinIndex(s[1..]);
      if s[k + 1].tiempoSegundos < s[0].tiempoSegundos then k + 1 else 0
  }

  /** `s.minByOrNull { it.tiempoSegundos }`: none for an empty list, else the first fastest record. */
  function MinByTime(s: seq<PitStop>): (r: Option<PitStop>)
    ensures r.None? <==> |s| == 0
    ensures r.Some? ==> exists k :: IsFirstMinimum(s, k) && s[k] == r.value
  {
    if |s| == 0 then None else Some(s[MinIndex(s)])
  }

  /**
   * The first fastest record among those that match: none exactly when no
   * record matches; otherwise a matching record no matching record beats,
   * and no earlier matching record ties with it.
   */
  function FastestMatching(s: seq<PitStop>, c: Criterion): (r: Option<PitStop>)
    ensures r.None? <==> forall p :: p in s ==> !Matches(c, p)
    ensures r.Some? ==> r.value in s && Matches(c, r.value)
    ensures r.Some? ==> forall p :: p in s && Matches(c, p) ==> r.value.tiempoSegundos <= p.tiempoSegundos
    ensures r.Some? ==> exists k :: 0 <= k < |s| && s[k] == r.value && IsFirstAmongMatching(s, c, k)
  {
    var f := Filter(s, c);
    if |f| == 0 then None
    else
      var m := f[MinIndex(f)];
      assert m in f;
      assert forall p :: p in f ==> m.tiempoSegundos <= p.tiempoSegundos by {
        forall p | p in f ensures m.tiempoSegundos <= p.tiempoSegundos {
          var j :| 0 <= j < |f| && f[j] == p;
        }
      }
      assert exists k :: 0 <= k < |s| && s[k] == m && IsFirstAmongMatching(s, c, k) by {
        var k := FirstMinimumOfFilter(s, c);
      }
      Some(m)
  }

  /** No record before position `k` matches with a time as small as the record at `k`. */
  predicate IsFirstAmongMatching(s: seq<PitStop>, c: Criterion, k: int)
    requires 0 <= k < |s|
  {
    forall j :: 0 <= j < k && Matches(c, s[j]) ==> s[j].tiempoSegundos > s[k].tiempoSegundos
  }

  /** The first minimum of the filtered list sits, in the original list, after no matching record as fast. */
  lemma {:induction false} FirstMinimumOfFilter(s: seq<PitStop>, c: Criterion) returns (k: nat)
    requires |Filter(s, c)| > 0
    ensures k < |s| && s[k] == Filter(s, c)[MinIndex(Filter(s, c))]
    ensures IsFirstAmongMatching(s, c, k)
  {
    var f := Filter(s, c);
    var rest := Filter(s[1..], c);
    if !Matches(c, s[0]) {
      assert f == rest;
      var k' := FirstMinimumOfFilter(s[1..], c);
      k := k' + 1;
      ShiftFirstAmongMatching(s, c, k');
    } else if MinIndex(f) == 0 {
      k := 0;
    } else {
      assert f == [s[0]] + rest;
      MinIndexCons(s[0], rest);
      var k' := FirstMinimumOfFilter(s[1..], c);
      k := k' + 1;
      assert s[k] == s[1..][k'];
      ShiftFirstAmongMatching(s, c, k');
    }
  }

  /** `minByOrNull` on `[x] + r` keeps the head unless the tail's minimum is strictly faster. */
  lemma MinIndexCons(x: PitStop, r: seq<PitStop>)
    requires |r| > 0
    ensures MinIndex([x] + r) == if r[MinIndex(r)].tiempoSegundos < x.tiempoSegundos then MinIndex(r) + 1 else 0
    ensures ([x] + r)[MinIndex([x] + r)] == if MinIndex([x] + r) == 0 then x else r[MinIndex(r)]
  {
    assert ([x] + r)[1..] == r;
  }

  /** Being first among the matches carries over from the tail to the whole list, given the head does not tie. */
  lemma ShiftFirstAmongMatching(s: seq<PitStop>, c: Criterion, k': nat)
    requires 0 < |s| && k' < |s| - 1
    requires IsFirstAmongMatching(s[1..], c, k')
    requires Matches(c, s[0]) ==> s[0].tiempoSegundos > s[k' + 1].tiempoSegundos
    ensures IsFirstAmongMatching(s, c, k' + 1)
  {
    forall j | 0 < j < k' + 1 && Matches(c, s[j])
      ensures s[j].tiempoSegundos > s[k' + 1].tiempoSegundos
    {
      assert s[j] == s[1..][j - 1];
    }
  }

  /** The sum of the times (left to right, as `average()` accumulates them). */
  function SumTimes(s: seq<PitStop>): real
  {
    if |s| == 0 then 0.0 else s[0].tiempoSegundos + SumTimes(s[1..])
  }

  /**
   * `if (s.isNotEmpty()) s.map { it.tiempoSegundos }.average() else 0.0`:
   * the arithmetic mean of the times, with exactly 0.0 standing for "no data".
   */
  function MeanTimeOrZero(s: seq<PitStop>): (r: real)
    ensures |s| == 0 ==> r == 0.0
    ensures |s| > 0 ==> r * (|s| as real) == SumTimes(s)
  {
    if |s| == 0 then 0.0 else SumTimes(s) / (|s| as real)
  }

  /** A lower bound on every time bounds the sum from below. */
  lemma {:induction false} SumTimesAtLeast(s: seq<PitStop>, lo: real)
    requires forall i :: 0 <= i < |s| ==> lo <= s[i].tiempoSegundos
    ensures (|s| as real) * lo <= SumTimes(s)
  {
    if |s| > 0 {
      SumTimesAtLeast(s[1..], lo);
    }
  }

  /** An upper bound on every time bounds the sum from above. */
  lemma {:induction false} SumTimesAtMost(s: seq<PitStop>, hi: real)
    requires forall i :: 0 <= i < |s| ==> s[i].tiempoSegundos <= hi
    ensures SumTimes(s) <= (|s| as real) * hi
  {
    if |s| > 0 {
      SumTimesAtMost(s[1..], hi);
    }
  }

  /** The mean of a non-empty list lies between any lower and any upper bound of its times. */
  lemma MeanWithinBounds(s: seq<PitStop>, lo: real, hi: real)
    requires |s| > 0
    requires forall i :: 0 <= i < |s| ==> lo <= s[i].tiempoSegundos
    requires forall i :: 0 <= i < |s| ==> s[i].tiempoSegundos <= hi
    ensures lo <= MeanTimeOrZero(s) <= hi
  {
    MeanAtLeast(s, lo);
    SumTimesAtMost(s, hi);
    var n := |s| as real;
    var m := MeanTimeOrZero(s);
    assert m * n == SumTimes(s);
    assert (hi - m) * n >= 0.0;
  }

  /** The mean of a non-empty list is never below its fastest time. */
  lemma MeanAtLeastFastest(s: seq<PitStop>)
    requires |s| > 0
    ensures MinByTime(s).value.tiempoSegundos <= MeanTimeOrZero(s)
  {
    var k := MinIndex(s);
    assert MinByTime(s).value == s[k];
    MeanAtLeast(s, s[k].tiempoSegundos);
  }

  /** A lower bound on every time bounds the mean of a non-empty list. */
  lemma MeanAtLeast(s: seq<PitStop>, lo: real)
    requires |s| > 0
    requires forall i :: 0 <= i < |s| ==> lo <= s[i].tiempoSegundos
    ensures lo <= MeanTimeOrZero(s)
  {
    SumTimesAtLeast(s, lo);
    var n := |s| as real;
    var m := MeanTimeOrZero(s);
    assert m * n == SumTimes(s);
    assert (m - lo) * n >= 0.0;
  }

  /**
   * With positive times the mean is positive exactly when there is data, so a
   * screen that shows "N/A" for a mean that is not positive shows it exactly
   * for an empty list.
   */
  lemma MeanPositiveIffNonEmpty(s: seq<PitStop>)
    requires forall i :: 0 <= i < |s| ==> s[i].tiempoSegundos > 0.0
    ensures MeanTimeOrZero(s) > 0.0 <==> |s| > 0
  {
    if |s| > 0 {
      MeanAtLeastFastest(s);
    }
  }

  /**
   * `(ok.toDouble() / total.toDouble()) * 100` when there are records, else
   * 0.0: the percentage of successful stops.
   */
  function SuccessRate(ok: nat, total: nat): (r: real)
    ensures total == 0 ==> r == 0.0
    ensures total > 0 ==> r * (total as real) == 100.0 * (ok as real)
    ensures ok <= total ==> 0.0 <= r <= 100.0
    ensures 0 < ok == total ==> r == 100.0
  {
    if total > 0 then ((ok as real) / (total as real)) * 100.0 else 0.0
  }

  /** `s.takeLast(n)`: the last min(n, |s|) elements, in their original order. */
  function TakeLast<T>(s: seq<T>, n: nat): (r: seq<T>)
    ensures |r| == if n < |s| then n else |s|
    ensures s == s[..|s| - |r|] + r
  {
    if n >= |s| then s else s[|s| - n..]
  }

  /** After an append, the recent window ends with the new element and keeps the n-1 before it. */
  lemma TakeLastAfterAppend<T>(s: seq<T>, x: T, n: nat)
    requires n > 0
    ensures TakeLast(s + [x], n) == TakeLast(s, n - 1) + [x]
  {
    var t := s + [x];
    if n < |t| {
      assert t[|t| - n..] == s[|s| - (n - 1)..] + [x];
    }
  }

  /** The records of a status are counted once each: the OK and the failed counts add up to at most the total, and exactly to it for valid records. */
  lemma {:induction false} StatusCountsBounded(s: seq<PitStop>)
    ensures |Filter(s, StatusIs(STATUS_OK))| + |Filter(s, StatusIs(STATUS_FAILED))| <= |s|
    ensures AllValid(s) ==> |Filter(s, StatusIs(STATUS_OK))| + |Filter(s, StatusIs(STATUS_FAILED))| == |s|
  {
    if |s| > 0 {
      StatusCountsBounded(s[1..]);
      assert AllValid(s) ==> AllValid(s[1..]) by {
        if AllValid(s) {
          forall i | 0 <= i < |s[1..]| ensures Valid(s[1..][i]) { assert s[1..][i] == s[i + 1]; }
        }
      }
    }
  }
}
