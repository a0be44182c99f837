/** The adjusted series built by spreading arrays. */
module Series {
  import opened Readings

  /** `[...avg, avg[0]]`: the overall hourly averages with the first one
      repeated at the end, so that a chart over the hours closes the day.
      For an empty list the one added element is `undefined`. */
  function AdjustedOverall<T>(avg: seq<Option<T>>): (r: seq<Option<T>>)
    ensures |r| == |avg| + 1
    ensures r[..|avg|] == avg
    ensures |avg| > 0 ==> r[|avg|] == avg[0] && r[0] == r[|r| - 1]
    ensures |avg| == 0 ==> r == [None]
  {
    avg + [First(avg)]
  }

  /** `[raw[0], ...filled]`: the filled hourly series with its first slot
      replaced in front by the day's first raw reading. */
  function AdjustedHourly<T>(raw: seq<Option<T>>, filled: seq<Option<T>>): (r: seq<Option<T>>)
    ensures |r| == |filled| + 1
    ensures r[1..] == filled
    ensures |raw| > 0 ==> r[0] == raw[0]
    ensures |raw| == 0 ==> r[0] == None
  {
    [First(raw)] + filled
  }
}
