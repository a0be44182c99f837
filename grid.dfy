/** Aligning one day's irregular samples onto the fixed 5-minute grid.

    A day's samples come as parallel arrays: sample times and, per reading
    kind, the readings. Slot `i` of a grid takes the reading of the first
    sample whose minute-of-day is `5 * i`, or a gap when no sample falls on
    that mark. */
module Grid {
  import opened Readings
  import opened Clock

  /** Sample `j` is the first whose minute-of-day is `m`. */
  ghost predicate FirstMatch(times: seq<TimeOfDay>, m: int, j: int)
  {
    0 <= j < |times| && TimeOnly(times[j]) == m &&
    forall k :: 0 <= k < j ==> TimeOnly(times[k]) != m
  }

  /** No sample has minute-of-day `m`. */
  ghost predicate NoMatch(times: seq<TimeOfDay>, m: int)
  {
    forall k :: 0 <= k < |times| ==> TimeOnly(times[k]) != m
  }

  /** Slot `i` of the grid is fed by sample `j`. */
  ghost predicate SlotFrom(times: seq<TimeOfDay>, i: int, j: int)
  {
    FirstMatch(times, SlotSpacing * i, j)
  }

  /** No sample falls on the mark of slot `i`. */
  ghost predicate SlotEmpty(times: seq<TimeOfDay>, i: int)
  {
    NoMatch(times, SlotSpacing * i)
  }

  /** What a 288-slot grid of `vals` must be: each slot holds the reading of
      the sample that feeds it, and a slot no sample feeds is a gap. */
  ghost predicate IsGrid<T>(times: seq<TimeOfDay>, vals: seq<Option<T>>, g: seq<Option<T>>)
  {
    |g| == SlotCount &&
    (forall i, j :: 0 <= i < SlotCount && SlotFrom(times, i, j) ==> g[i] == At(vals, j)) &&
    (forall i :: 0 <= i < SlotCount && SlotEmpty(times, i) ==> g[i] == None)
  }

  /** `times.findIndex(t => getTimeOnly(t) === m)`: the index of a sample
      at minute `m`, or -1. */
  function FindIndex(times: seq<TimeOfDay>, m: int): (r: int)
    ensures -1 <= r < |times|
  {
    if |times| == 0 then -1
    else if TimeOnly(times[0]) == m then 0
    else
      var r := FindIndex(times[1..], m);
      if r == -1 then -1 else r + 1
  }

  /** `FindIndex` reports the first sample at minute `m`, and -1 exactly
      when there is none. */
  lemma {:induction false} FindIndexFirst(times: seq<TimeOfDay>, m: int)
    ensures FindIndex(times, m) >= 0 ==> FirstMatch(times, m, FindIndex(times, m))
    ensures FindIndex(times, m) == -1 <==> NoMatch(times, m)
  {
    if |times| > 0 && TimeOnly(times[0]) != m {
      var tail := times[1..];
      FindIndexFirst(tail, m);
      assert forall k :: 0 < k < |times| ==> times[k] == tail[k - 1];
      var r := FindIndex(tail, m);
      if r != -1 {
        assert times[r + 1] == tail[r];
      }
    }
  }

  /** A first match is the one `FindIndex` reports. */
  lemma FirstMatchFound(times: seq<TimeOfDay>, m: int, j: int)
    requires FirstMatch(times, m, j)
    ensures FindIndex(times, m) == j
  {
    FindIndexFirst(times, m);
    var r := FindIndex(times, m);
    assert TimeOnly(times[j]) == m;
    if r != -1 {
      assert TimeOnly(times[r]) == m;
    }
  }

  /** The reading the alignment loop writes for the mark at minute `m`. */
  function SlotValue<T>(times: seq<TimeOfDay>, vals: seq<Option<T>>, m: int): Option<T>
  {
    var j := FindIndex(times, m);
    if j != -1 then At(vals, j) else None
  }

  lemma SlotValuesMakeGrid<T>(times: seq<TimeOfDay>, vals: seq<Option<T>>, g: seq<Option<T>>)
    requires |g| == SlotCount
    requires forall i :: 0 <= i < SlotCount ==> g[i] == SlotValue(times, vals, SlotSpacing * i)
    ensures IsGrid(times, vals, g)
  {
    forall i, j | 0 <= i < SlotCount && SlotFrom(times, i, j)
      ensures g[i] == At(vals, j)
    {
      FirstMatchFound(times, SlotSpacing * i, j);
    }
    forall i | 0 <= i < SlotCount && SlotEmpty(times, i)
      ensures g[i] == None
    {
      FindIndexFirst(times, SlotSpacing * i);
    }
  }

  /** The expanded grid of one reading kind. */
  function Expand<T>(times: seq<TimeOfDay>, vals: seq<Option<T>>): (g: seq<Option<T>>)
    ensures IsGrid(times, vals, g)
  {
    var g := seq(SlotCount, i requires 0 <= i < SlotCount => SlotValue(times, vals, SlotSpacing * i));
    SlotValuesMakeGrid(times, vals, g);
    g
  }

  /** The grid specification leaves no freedom: any sequence meeting it is
      the expanded grid. */
  lemma GridUnique<T>(times: seq<TimeOfDay>, vals: seq<Option<T>>, g: seq<Option<T>>)
    requires IsGrid(times, vals, g)
    ensures g == Expand(times, vals)
  {
    var e := Expand(times, vals);
    forall i | 0 <= i < SlotCount
      ensures g[i] == e[i]
    {
      FindIndexFirst(times, SlotSpacing * i);
      var j := FindIndex(times, SlotSpacing * i);
      if j == -1 {
        assert SlotEmpty(times, i);
      } else {
        assert SlotFrom(times, i, j);
      }
    }
  }

  /** The temperature and the humidity of a slot come from the same sample,
      and a slot no sample feeds is a gap in both grids. */
  lemma SameSample<T>(times: seq<TimeOfDay>, temps: seq<Option<T>>, humids: seq<Option<T>>, i: int)
    requires 0 <= i < SlotCount
    ensures
      || (exists j :: SlotFrom(times, i, j) &&
                      Expand(times, temps)[i] == At(temps, j) &&
                      Expand(times, humids)[i] == At(humids, j))
      || (SlotEmpty(times, i) && Expand(times, temps)[i] == None && Expand(times, humids)[i] == None)
  {
    FindIndexFirst(times, SlotSpacing * i);
    var j := FindIndex(times, SlotSpacing * i);
    if j != -1 {
      assert SlotFrom(times, i, j);
    }
  }

  /** The array without element `k`; unchanged when `k` is past the end. */
  function Drop<T>(s: seq<T>, k: nat): (r: seq<T>)
    ensures |r| == if k < |s| then |s| - 1 else |s|
  {
    if k < |s| then seq(|s| - 1, x requires 0 <= x < |s| - 1 => if x < k then s[x] else s[x + 1])
    else s
  }

  /** Removing a sample that is not the first match for `m` moves the first
      match for `m` down by one if it came after the removed sample. */
  lemma FindIndexDrop(times: seq<TimeOfDay>, k: nat, m: int)
    requires k < |times|
    requires FindIndex(times, m) != k
    ensures FindIndex(Drop(times, k), m) ==
            (var f := FindIndex(times, m); if f < k then f else f - 1)
  {
    FindIndexFirst(times, m);
    var f := FindIndex(times, m);
    var d := Drop(times, k);
    if f == -1 {
      FindIndexFirst(d, m);
      assert NoMatch(d, m) by {
        forall x | 0 <= x < |d| ensures TimeOnly(d[x]) != m {
          assert d[x] == if x < k then times[x] else times[x + 1];
        }
      }
    } else if f < k {
      assert FirstMatch(d, m, f) by {
        assert d[f] == times[f];
        forall x | 0 <= x < f ensures TimeOnly(d[x]) != m {
          assert d[x] == times[x];
        }
      }
      FirstMatchFound(d, m, f);
    } else {
      assert FirstMatch(d, m, f - 1) by {
        assert d[f - 1] == times[f];
        forall x | 0 <= x < f - 1 ensures TimeOnly(d[x]) != m {
          assert d[x] == if x < k then times[x] else times[x + 1];
        }
      }
      FirstMatchFound(d, m, f - 1);
    }
  }

  /** Reading index `f` of an array is reading the shifted index of the
      array without element `k`, for any `f` other than `k`. */
  lemma AtDrop<T>(vals: seq<Option<T>>, k: nat, f: nat)
    requires f != k
    ensures At(Drop(vals, k), if f < k then f else f - 1) == At(vals, f)
  {
    var d := Drop(vals, k);
    if k < |vals| {
      if f < k {
        assert Element(d, f) == Element(vals, f);
      } else {
        assert Element(d, f - 1) == Element(vals, f);
      }
    }
  }

  /** Removing a sample that feeds no slot at minute `m` leaves that
      slot's value as it was. */
  lemma SlotValueDrop<T>(times: seq<TimeOfDay>, vals: seq<Option<T>>, k: nat, m: int)
    requires k < |times|
    requires FindIndex(times, m) != k
    ensures SlotValue(Drop(times, k), Drop(vals, k), m) == SlotValue(times, vals, m)
  {
    var f := FindIndex(times, m);
    FindIndexDrop(times, k, m);
    if f != -1 {
      AtDrop(vals, k, f);
    }
  }

  /** A sample that feeds no slot does not affect the grid: one whose
      minute-of-day is not a multiple of 5, or one that repeats the minute
      of an earlier sample. */
  lemma {:induction false} UnusedSampleIgnored<T>(times: seq<TimeOfDay>, vals: seq<Option<T>>, k: nat)
    requires k < |times|
    requires TimeOnly(times[k]) % SlotSpacing != 0 ||
             exists j :: 0 <= j < k && TimeOnly(times[j]) == TimeOnly(times[k])
    ensures Expand(Drop(times, k), Drop(vals, k)) == Expand(times, vals)
  {
    var e, e' := Expand(times, vals), Expand(Drop(times, k), Drop(vals, k));
    forall i | 0 <= i < SlotCount
      ensures e'[i] == e[i]
    {
      FeedsNoMark(times, k, SlotSpacing * i);
      SlotValueDrop(times, vals, k, SlotSpacing * i);
    }
    assert |e| == |e'|;
  }

  /** Such a sample is never the first match for a 5-minute mark. */
  lemma FeedsNoMark(times: seq<TimeOfDay>, k: nat, m: int)
    requires k < |times|
    requires TimeOnly(times[k]) % SlotSpacing != 0 ||
             exists j :: 0 <= j < k && TimeOnly(times[j]) == TimeOnly(times[k])
    requires m % SlotSpacing == 0
    ensures FindIndex(times, m) != k
  {
    FindIndexFirst(times, m);
    if TimeOnly(times[k]) == m {
      var j :| 0 <= j < k && TimeOnly(times[j]) == TimeOnly(times[k]);
      assert FindIndex(times, m) <= j;
    }
  }

  /** The alignment loop: for each mark of `timeline`, find the first sample
      at that minute and copy its temperature and humidity into the two
      containers, or write a gap into both. */
  method Align<T>(timeline: seq<TimeOfDay>, times: seq<TimeOfDay>,
                  temps: seq<Option<T>>, humids: seq<Option<T>>,
                  tc: array<Option<T>>, hc: array<Option<T>>)
    requires tc.Length == |timeline| && hc.Length == |timeline|
    requires tc != hc
    modifies tc, hc
    ensures forall i :: 0 <= i < |timeline| ==>
              tc[i] == SlotValue(times, temps, TimeOnly(timeline[i])) &&
              hc[i] == SlotValue(times, humids, TimeOnly(timeline[i]))
  {
    var index := 0;
    while index < |timeline|
      invariant 0 <= index <= |timeline|
      invariant forall i :: 0 <= i < index ==>
                  tc[i] == SlotValue(times, temps, TimeOnly(timeline[i])) &&
                  hc[i] == SlotValue(times, humids, TimeOnly(timeline[i]))
    {
      var dummyTime := TimeOnly(timeline[index]);
      var realIndex := FindIndex(times, dummyTime);
      if realIndex != -1 {
        tc[index] := At(temps, realIndex);
        hc[index] := At(humids, realIndex);
      } else {
        tc[index] := None;
        hc[index] := None;
      }
      index := index + 1;
    }
  }

  /** One day's expansion: the dummy timeline, two gap-filled containers of
      288 slots, and the alignment loop over them. */
  method ExpandDay<T>(times: seq<TimeOfDay>, temps: seq<Option<T>>, humids: seq<Option<T>>)
    returns (timeline: seq<TimeOfDay>, tempGrid: seq<Option<T>>, humidGrid: seq<Option<T>>)
    ensures timeline == Timeline()
    ensures IsGrid(times, temps, tempGrid) && IsGrid(times, humids, humidGrid)
  {
    var temperatureContainer := new Option<T>[SlotCount](_ => None);
    var humidityContainer := new Option<T>[SlotCount](_ => None);
    timeline := DummyTimeline();
    Align(timeline, times, temps, humids, temperatureContainer, humidityContainer);
    tempGrid, humidGrid := temperatureContainer[..], humidityContainer[..];
    SlotValuesMakeGrid(times, temps, tempGrid);
    SlotValuesMakeGrid(times, humids, humidGrid);
  }
}
