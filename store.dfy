/** The weather store: the state the daily and overall snapshot listeners
    keep up to date.

    A daily snapshot holds up to seven day documents, newest first, and the
    list of document changes since the previous snapshot. The overall
    snapshot holds one document of aggregates over all days. */
module Store {
  import opened Readings
  import opened Clock
  import Grid
  import Series

  /** The kind of a document change; every kind counts as one change. */
  datatype ChangeType = Added | Modified | Removed

  /** A day's peak or lowest temperature and when it happened. */
  datatype Extreme = Extreme(value: real, time: string)

  /** A document's hourly averages, keyed by hour. */
  type HourlyObject = map<string, Reading>

  /** One day document. `time` holds the sample times, already combined with
      `date` and parsed. */
  datatype DayDoc = DayDoc(
    date: string,
    temp: seq<Reading>,
    humid: seq<Reading>,
    heatIndex: seq<Reading>,
    time: seq<TimeOfDay>,
    dataPointCount: int,
    peakTemp: Extreme,
    lowestTemp: Extreme,
    hourlyTemp: HourlyObject,
    hourlyHumid: HourlyObject)

  /** A document's date together with one of its parsed sample times. */
  datatype DateTime = DateTime(date: string, time: TimeOfDay)

  datatype Snapshot = Snapshot(docs: seq<DayDoc>, changes: seq<ChangeType>)

  /** The document of aggregates over all days; `overallHourlyAverage` holds
      the values of the stored object in key order. */
  datatype OverallDoc = OverallDoc(correlationPeakLowTemperature: real, overallHourlyAverage: seq<Reading>)

  datatype HourlySeries = HourlySeries(filled: seq<Reading>, adjusted: seq<Reading>)

  /** What the store keeps of one day. */
  datatype Entry = Entry(
    date: string,
    temperatures: seq<Reading>,
    humidity: seq<Reading>,
    datetime: seq<TimeOfDay>,
    dataPointCount: int,
    hourlyTemperature: HourlySeries,
    hourlyTemperatureObject: HourlyObject,
    hourlyHumidity: HourlySeries,
    expandedTemperature: seq<Reading>,
    expandedHumidity: seq<Reading>,
    expandedDatetime: seq<TimeOfDay>)

  /** The shape every stored entry has: two 288-slot grids over the dummy
      timeline, and adjusted hourly series one longer than the filled ones. */
  ghost predicate WellShaped(e: Entry)
  {
    |e.expandedTemperature| == SlotCount &&
    |e.expandedHumidity| == SlotCount &&
    e.expandedDatetime == Timeline() &&
    |e.hourlyTemperature.adjusted| == |e.hourlyTemperature.filled| + 1 &&
    |e.hourlyHumidity.adjusted| == |e.hourlyHumidity.filled| + 1
  }

  /** The entry built from one document; `fill` stands for `fillMissingHours`. */
  function EntryOf(doc: DayDoc, fill: HourlyObject -> seq<Reading>): (e: Entry)
    ensures WellShaped(e)
    ensures e.date == doc.date && e.temperatures == doc.temp && e.humidity == doc.humid
    ensures e.datetime == doc.time && e.dataPointCount == doc.dataPointCount
    ensures Grid.IsGrid(doc.time, doc.temp, e.expandedTemperature)
    ensures Grid.IsGrid(doc.time, doc.humid, e.expandedHumidity)
    ensures e.hourlyTemperature.filled == fill(doc.hourlyTemp)
    ensures e.hourlyTemperature.adjusted[1..] == e.hourlyTemperature.filled
    ensures e.hourlyTemperature.adjusted[0] == First(doc.temp)
    ensures e.hourlyHumidity.filled == fill(doc.hourlyHumid)
    ensures e.hourlyHumidity.adjusted[1..] == e.hourlyHumidity.filled
    ensures e.hourlyHumidity.adjusted[0] == First(doc.humid)
    ensures e.hourlyTemperatureObject == doc.hourlyTemp
  {
    var filledHourlyTemp := fill(doc.hourlyTemp);
    var filledHourlyHumid := fill(doc.hourlyHumid);
    Entry(
      doc.date, doc.temp, doc.humid, doc.time, doc.dataPointCount,
      HourlySeries(filledHourlyTemp, Series.AdjustedHourly(doc.temp, filledHourlyTemp)),
      doc.hourlyTemp,
      HourlySeries(filledHourlyHumid, Series.AdjustedHourly(doc.humid, filledHourlyHumid)),
      Grid.Expand(doc.time, doc.temp),
      Grid.Expand(doc.time, doc.humid),
      Timeline())
  }

  /** `snapshot.docs.map(...)`: one entry per document, in snapshot order. */
  function Entries(docs: seq<DayDoc>, fill: HourlyObject -> seq<Reading>): (es: seq<Entry>)
    ensures |es| == |docs|
    ensures forall k :: 0 <= k < |docs| ==>
              WellShaped(es[k]) &&
              es[k].date == docs[k].date &&
              es[k].temperatures == docs[k].temp &&
              es[k].humidity == docs[k].humid &&
              es[k].datetime == docs[k].time
  {
    seq(|docs|, k requires 0 <= k < |docs| => EntryOf(docs[k], fill))
  }

  /** The body of the mapping callback, with the alignment loop inside. */
  method BuildEntry(doc: DayDoc, fill: HourlyObject -> seq<Reading>) returns (e: Entry)
    ensures e == EntryOf(doc, fill)
  {
    var timeline, temperatureGrid, humidityGrid := Grid.ExpandDay(doc.time, doc.temp, doc.humid);
    Grid.GridUnique(doc.time, doc.temp, temperatureGrid);
    Grid.GridUnique(doc.time, doc.humid, humidityGrid);
    var filledHourlyTemp := fill(doc.hourlyTemp);
    var filledHourlyHumid := fill(doc.hourlyHumid);
    var adjHourlyTemp := Series.AdjustedHourly(doc.temp, filledHourlyTemp);
    var adjHourlyHumid := Series.AdjustedHourly(doc.humid, filledHourlyHumid);
    e := Entry(
      doc.date, doc.temp, doc.humid, doc.time, doc.dataPointCount,
      HourlySeries(filledHourlyTemp, adjHourlyTemp),
      doc.hourlyTemp,
      HourlySeries(filledHourlyHumid, adjHourlyHumid),
      temperatureGrid, humidityGrid, timeline);
  }

  /** The mapping over all documents of a snapshot. */
  method BuildEntries(docs: seq<DayDoc>, fill: HourlyObject -> seq<Reading>) returns (es: seq<Entry>)
    ensures es == Entries(docs, fill)
  {
    es := [];
    var k := 0;
    while k < |docs|
      invariant 0 <= k <= |docs|
      invariant |es| == k
      invariant forall x :: 0 <= x < k ==> es[x] == EntryOf(docs[x], fill)
    {
      var e := BuildEntry(docs[k], fill);
      es := es + [e];
      k := k + 1;
    }
  }

  class DataStore {
    var lastTemperature: Reading
    var lastHumidity: Reading
    var lastHeatIndex: Reading
    var lastEntryTime: Option<TimeOfDay>
    /** `None` stands for the wall-clock `new Date()` the store starts with. */
    var lastDatetime: Option<DateTime>
    var todayHighTempData: real
    var todayHighTempTime: string
    var todayLowTempData: real
    var todayLowTempTime: string
    var dataEntries: seq<Entry>
    var correlationPeakLowTemperature: real
    var overallHourlyAverage: seq<Reading>
    var adjOverallHourlyAverage: seq<Reading>
    var dataChanges: nat

    /** Every stored entry has the shape the charts rely on. */
    ghost predicate Valid()
      reads this
    {
      forall k :: 0 <= k < |dataEntries| ==> WellShaped(dataEntries[k])
    }

    /** The store's initial state. */
    constructor ()
      ensures Valid()
      ensures lastTemperature == Some(0.0) && lastHumidity == Some(0.0) && lastHeatIndex == Some(0.0)
      ensures lastEntryTime == None && lastDatetime == None
      ensures todayHighTempData == 0.0 && todayHighTempTime == ""
      ensures todayLowTempData == 0.0 && todayLowTempTime == ""
      ensures dataEntries == []
      ensures correlationPeakLowTemperature == 0.0
      ensures overallHourlyAverage == [] && adjOverallHourlyAverage == []
      ensures dataChanges == 0
    {
      lastTemperature, lastHumidity, lastHeatIndex := Some(0.0), Some(0.0), Some(0.0);
      lastEntryTime := None;
      lastDatetime := None;
      todayHighTempData, todayHighTempTime := 0.0, "";
      todayLowTempData, todayLowTempTime := 0.0, "";
      dataEntries := [];
      correlationPeakLowTemperature := 0.0;
      overallHourlyAverage, adjOverallHourlyAverage := [], [];
      dataChanges := 0;
    }

    /** The loop over the document changes: one increment per change,
        whatever its kind. */
    method CountChanges(changes: seq<ChangeType>)
      modifies this`dataChanges
      ensures dataChanges == old(dataChanges) + |changes|
    {
      var i := 0;
      while i < |changes|
        invariant 0 <= i <= |changes|
        invariant dataChanges == old(dataChanges) + i
      {
        match changes[i] {
          case Added => dataChanges := dataChanges + 1;
          case Modified => dataChanges := dataChanges + 1;
          case Removed => dataChanges := dataChanges + 1;
        }
        i := i + 1;
      }
    }

    /** The last element of each array of the newest document. */
    method TakeLastReadings(lastDocument: DayDoc)
      modifies this`lastTemperature, this`lastHumidity, this`lastHeatIndex, this`lastEntryTime
      ensures lastTemperature == Last(lastDocument.temp)
      ensures lastHumidity == Last(lastDocument.humid)
      ensures lastHeatIndex == Last(lastDocument.heatIndex)
      ensures lastEntryTime == LastElement(lastDocument.time)
    {
      lastTemperature := Last(lastDocument.temp);
      lastHumidity := Last(lastDocument.humid);
      lastHeatIndex := Last(lastDocument.heatIndex);
      lastEntryTime := LastElement(lastDocument.time);
    }

    /** The date and time of the newest document's last sample, written once
        its relative time has been formatted. */
    method TakeLastDatetime(lastDocument: DayDoc)
      requires |lastDocument.time| > 0
      modifies this`lastDatetime
      ensures lastDatetime == Some(DateTime(lastDocument.date, lastDocument.time[|lastDocument.time| - 1]))
    {
      var timeArray := lastDocument.time;
      lastDatetime := Some(DateTime(lastDocument.date, timeArray[|timeArray| - 1]));
    }

    /** The day's high and low, copied from the newest document. */
    method TakeExtremes(lastDocument: DayDoc)
      modifies this`todayHighTempData, this`todayHighTempTime, this`todayLowTempData, this`todayLowTempTime
      ensures todayHighTempData == lastDocument.peakTemp.value && todayHighTempTime == lastDocument.peakTemp.time
      ensures todayLowTempData == lastDocument.lowestTemp.value && todayLowTempTime == lastDocument.lowestTemp.time
    {
      todayHighTempData, todayHighTempTime := lastDocument.peakTemp.value, lastDocument.peakTemp.time;
      todayLowTempData, todayLowTempTime := lastDocument.lowestTemp.value, lastDocument.lowestTemp.time;
    }

    /** The daily listener. An empty snapshot changes nothing. Otherwise the
        changes are counted and the last readings are taken from the newest
        document. When that document has no sample times, the time of its
        last entry is an invalid date and the relative-time formatting
        throws, so the listener stops there; otherwise it goes on to copy
        the day's extremes and to rebuild every entry. */
    method ApplyDailySnapshot(snapshot: Snapshot, fill: HourlyObject -> seq<Reading>)
      requires Valid()
      modifies this
      ensures Valid()
      ensures |snapshot.docs| == 0 ==> unchanged(this)
      ensures |snapshot.docs| > 0 ==>
        var newest := snapshot.docs[0];
        && dataChanges == old(dataChanges) + |snapshot.changes|
        && lastTemperature == Last(newest.temp)
        && lastHumidity == Last(newest.humid)
        && lastHeatIndex == Last(newest.heatIndex)
        && lastEntryTime == LastElement(newest.time)
        && (|newest.time| == 0 ==>
              && lastDatetime == old(lastDatetime)
              && todayHighTempData == old(todayHighTempData) && todayHighTempTime == old(todayHighTempTime)
              && todayLowTempData == old(todayLowTempData) && todayLowTempTime == old(todayLowTempTime)
              && dataEntries == old(dataEntries))
        && (|newest.time| > 0 ==>
              && lastDatetime == Some(DateTime(newest.date, newest.time[|newest.time| - 1]))
              && todayHighTempData == newest.peakTemp.value && todayHighTempTime == newest.peakTemp.time
              && todayLowTempData == newest.lowestTemp.value && todayLowTempTime == newest.lowestTemp.time
              && dataEntries == Entries(snapshot.docs, fill))
      ensures correlationPeakLowTemperature == old(correlationPeakLowTemperature)
      ensures overallHourlyAverage == old(overallHourlyAverage)
      ensures adjOverallHourlyAverage == old(adjOverallHourlyAverage)
    {
      if |snapshot.docs| == 0 {
        return;
      }
      CountChanges(snapshot.changes);
      var lastDocument := snapshot.docs[0];
      TakeLastReadings(lastDocument);
      if |lastDocument.time| == 0 {
        return;
      }
      TakeLastDatetime(lastDocument);
      TakeExtremes(lastDocument);
      var entries := BuildEntries(snapshot.docs, fill);
      dataEntries := entries;
    }

    /** The overall listener. It reads the first document without checking
        that there is one; on an empty snapshot that read throws before any
        field is written, reported here as `ok == false`. */
    method ApplyOverallSnapshot(docs: seq<OverallDoc>) returns (ok: bool)
      requires Valid()
      modifies this
      ensures Valid()
      ensures ok <==> |docs| > 0
      ensures !ok ==> unchanged(this)
      ensures ok ==>
        && correlationPeakLowTemperature == docs[0].correlationPeakLowTemperature
        && overallHourlyAverage == docs[0].overallHourlyAverage
        && adjOverallHourlyAverage == Series.AdjustedOverall(docs[0].overallHourlyAverage)
        && dataEntries == old(dataEntries) && dataChanges == old(dataChanges)
        && lastTemperature == old(lastTemperature) && lastHumidity == old(lastHumidity)
        && lastHeatIndex == old(lastHeatIndex) && lastEntryTime == old(lastEntryTime)
        && lastDatetime == old(lastDatetime)
        && todayHighTempData == old(todayHighTempData) && todayHighTempTime == old(todayHighTempTime)
        && todayLowTempData == old(todayLowTempData) && todayLowTempTime == old(todayLowTempTime)
    {
      if |docs| == 0 {
        return false;
      }
      var overallData := docs[0];
      correlationPeakLowTemperature := overallData.correlationPeakLowTemperature;
      overallHourlyAverage := overallData.overallHourlyAverage;
      adjOverallHourlyAverage := Series.AdjustedOverall(overallData.overallHourlyAverage);
      ok := true;
    }
  }
}
