# Weather dashboard store: time-series reshaping

This project models the client-side store of a temperature and humidity
dashboard. The store listens to two document collections. The daily listener
receives up to seven day documents, newest first. From them it takes the
latest readings and the day's extremes. It then rebuilds one entry per day.
Each entry aligns the day's irregular samples onto a fixed grid of 288
five-minute slots (00:00 to 23:55), and prepends the first raw reading to the
filled hourly series. The overall listener takes the all-days aggregates and
closes the hourly-average series by repeating its first value at the end.

Files and modules:

- `readings.dfy` (`Readings`): `Option`, the reading type, and JavaScript
  array reads (`Element` and `LastElement` for any array; `At`, `First`
  and `Last` for arrays of readings). A read past the end gives `undefined`,
  modelled as `None`, the same as a `null` reading.
- `clock.dfy` (`Clock`): a time of day, `getTimeOnly` (`TimeOnly`), the
  clock reading `setHours`/`setMinutes` give (`AtMinute`), and the dummy
  timeline loop (`DummyTimeline`) proved against `Timeline`.
- `grid.dfy` (`Grid`): `findIndex` (`FindIndex`), the grid specification
  `IsGrid`, its functional form `Expand`, and the alignment loop `Align`. This
  loop overwrites two null-filled arrays in place. `ExpandDay` allocates those
  arrays and runs the loop.
- `series.dfy` (`Series`): the two adjusted series built by array spreads.
- `store.dfy` (`Store`): the documents, the stored entry, and the
  `DataStore` class whose methods are the two listeners.

`fillMissingHours` comes from a file that is not part of this model. It is the
function parameter `fill` of the daily listener. Sample times arrive already
parsed, as `TimeOfDay` values.

The alignment runs inside the daily listener. The hourly averages arrive
precomputed in each document and only pass through `fillMissingHours`.

## Model

| member | source | states |
|---|---|---|
| Clock.TimeOnly | store/index.ts:127 | hours times 60 plus minutes is a minute of day in 0..1439 from which the hour (`m / 60`) and the minute (`m % 60`) are recovered |
| Clock.TimeOnlyRoundTrip | store/index.ts:127 | setting a clock from `getTimeOnly`'s result gives back the same hour and minute |
| Clock.AtMinute | store/index.ts:155-157 | the dummy date set to hour `m / 60` and minute `m % 60` has minute-of-day `m` |
| Clock.TimeOnlyInjective | store/index.ts:127 | two times with the same `getTimeOnly` value are the same time of day |
| Clock.Timeline | store/index.ts:153-159 | the dummy timeline has 288 marks; mark `k` is at minute `5 * k`; the first is 00:00 and the last 23:55 |
| Clock.DummyTimeline | store/index.ts:153-159 | the `for` loop stepping by 5 minutes below 24 * 60 pushes exactly the 288-mark timeline |
| Grid.FindIndex | store/index.ts:164-166 | the result is -1 or an index of the sample array |
| Grid.FindIndexFirst | store/index.ts:164-166 | the result is -1 exactly when no sample has the minute; otherwise it is the lowest index of a sample at that minute |
| Grid.FirstMatchFound | store/index.ts:164-166 | the first sample at a minute is the index `findIndex` returns |
| Grid.SlotValuesMakeGrid | store/index.ts:162-176 | writing each slot's found value, or null, yields a sequence that meets the grid specification |
| Grid.Expand | store/index.ts:162-176 | the expanded grid has 288 slots; slot `i` holds the reading of the first sample at minute `5 * i`, or null when no sample is at that minute |
| Grid.GridUnique | store/index.ts:162-176 | any 288-slot sequence meeting the grid specification equals the expanded grid |
| Grid.SameSample | store/index.ts:169-175 | each slot's temperature and humidity come from the same sample index, or else no sample is at its minute and both slots are null |
| Grid.FindIndexDrop | store/index.ts:164-166 | removing a sample that is not the first match for a minute keeps that match, shifted down by one if it came after the removed sample |
| Grid.AtDrop | store/index.ts:170-171 | reading index `f` of the readings equals reading the shifted index once another sample's reading is removed, also past the end of a short array |
| Grid.SlotValueDrop | store/index.ts:169-175 | removing such a sample, from the times and the readings alike, leaves that slot's value unchanged |
| Grid.FeedsNoMark | store/index.ts:164-166 | a sample off the 5-minute marks, or a later duplicate of an earlier sample's minute, is never the index found for a 5-minute mark |
| Grid.UnusedSampleIgnored | store/index.ts:162-171 | a sample off the 5-minute marks, or a later duplicate of an earlier sample's minute, can be removed without changing the grid |
| Grid.Align | store/index.ts:162-176 | after the loop, each container slot holds the value found for its timeline mark, the same index in both containers |
| Grid.ExpandDay | store/index.ts:129-176 | the dummy timeline is the 288-mark timeline, and both filled containers meet the grid specification |
| Series.AdjustedOverall | store/index.ts:79-80 | the result is one longer than the input; the input is its prefix; its last element is the first input element, or `undefined` for an empty input |
| Series.AdjustedHourly | store/index.ts:181-183 | the result is one longer than the filled series; the filled series follows unchanged; the first element is the first raw reading, or `undefined` |
| Store.EntryOf | store/index.ts:134-203 | one document's entry copies the raw arrays, date and point count; both grids meet the grid specification over the day's times; both adjusted hourly series are the first raw reading followed by the filled series |
| Store.Entries | store/index.ts:134-204 | there is one well-shaped entry per document, in snapshot order, with that document's date and raw arrays |
| Store.BuildEntry | store/index.ts:135-203 | the mapping callback, with its alignment loop, produces the document's entry |
| Store.BuildEntries | store/index.ts:134-204 | mapping the callback over the documents yields the entries in order |
| Store.DataStore.constructor | store/index.ts:40-58 | the initial state: zero readings and extremes, no entry time or date-time, no entries, no changes |
| Store.DataStore.CountChanges | store/index.ts:85-98 | the change counter grows by exactly the number of changes, whatever their kinds |
| Store.DataStore.TakeLastReadings | store/index.ts:101-110 | the last-reading fields are the final elements of the newest document's arrays |
| Store.DataStore.TakeLastDatetime | store/index.ts:113-117 | `lastDatetime` becomes the newest document's date with its last sample time |
| Store.DataStore.TakeExtremes | store/index.ts:120-123 | the high and low fields are the newest document's peak and lowest temperatures and their times |
| Store.DataStore.ApplyDailySnapshot | store/index.ts:83-207 | an empty snapshot changes nothing; otherwise the counter grows by the number of changes and the last readings come from the newest document; when that document has sample times, its last date-time and the extremes are copied and the entries are rebuilt one per document; when it has none, the run stops at the date formatting; the overall fields never change and every entry stays well-shaped |
| Store.DataStore.ApplyOverallSnapshot | store/index.ts:74-81 | with a document, the correlation and the hourly averages are copied and the adjusted series is closed with its first value; with none, `docs[0]` throws and nothing changes; the daily fields never change |

## Left out

- The Firestore queries, `onSnapshot`, `getDocs` and the framework reactivity are network and framework plumbing. Snapshots are plain values passed in. The query guarantees seven documents at most, newest first; the model does not enforce this.
- `relativeTime` depends on the wall clock through date-fns `formatDistanceToNow`. Only one case is modelled: an invalid date makes `formatDistanceToNow` throw, and the daily listener then stops part-way. The model raises it when the newest document has no sample times.
- Parsing `"<date> <time>"` with `new Date` depends on the locale. Sample times are given as parsed hours and minutes. A string that does not parse is not modelled. Its NaN time would match no mark. If it is the newest document's last time, or that document's `date` does not parse, `formatDistanceToNow` also throws, stopping the daily listener as for an empty time array; the model does not raise that abort.
- The dummy dates take the current date and seconds from `new Date()`, and a daylight-saving change can shift `setHours`. Only their hour and minute are modelled, and those are what `getTimeOnly` reads.
- `fillMissingHours` comes from a file that is not part of this model. It is an opaque function parameter.
- A document that lacks a field the listeners read makes them throw part-way. Documents are modelled as always having every field.
- The catch-and-log around the subscription setup is an I/O error path.
- The `usePreferences` store only assigns one field.
- `Object.values` ordering: the overall hourly averages arrive as a sequence already in key order.
- Store.DataStore.TakeLastReadings: `lastEntryTime` keeps the raw `"HH:mm"` string in the store. The model keeps the parsed time instead, with `None` for the initial empty string and for `undefined`.
- Store.DataStore.constructor: `lastDatetime` starts as the wall-clock `new Date()`; the model starts it as `None`.
- Store.DataStore.constructor: the source starts the two extreme-time fields as the number `0`. The model starts them as the empty string, the type they take once a document arrives.
- `null` and `undefined` are not distinguished; both are `None`.
