# LSVT level meter — a Dafny model

LSVT is an iOS app that shows a microphone's loudness as a scrolling line
chart. Its core is a small metering pipeline, and the app has two copies of
it: class `Decibel` in `LSVT/ContentView.swift` and class `AppDelegate` in
`LSVT/AppDelegate.swift`. A timer fires every 100 ms. On each firing it reads
the recorder's peak power in dBFS. It converts that reading to a display
level with `dBFS_convertTo_dB`, then pushes the level into `queue`. `queue`
is a fixed-length history that was zero-filled when `setup` ran. `Decibel`
also projects the history into chart points (`getData`).

The model has four modules:

- `LevelMeter` (`LevelMeter.dfy`): the conversion that both copies share,
  up to the final scale factor. The two `powf` calls are kept abstract in
  `MathLib`. `pow10` may be any positive, strictly increasing function with
  `pow10(0) == 1`. `sqrt` may be any non-negative square root on the
  non-negative reals. The module proves the range of the conversion, where
  it is 0 and where it is full scale, how the formula meets the two clamps,
  and that the conversion is monotone.
- `SlidingWindow` (`SlidingWindow.dfy`): the history as a value. `Shifted`
  is one `addToQueue`, and `PushAll` is a run of them. The module proves
  that the length never changes and the FIFO contents after k pushes.
- `ContentView` (`ContentView.dfy`): class `Decibel` with its `queue` and
  `dataPointsToTrack` fields. It has the 120-scaled conversion, the
  zero-fill loop of `setup`, `addToQueue`, one timer tick, a serial run of
  ticks, and `getData`. A lemma shows the chart never plots the newest
  reading.
- `AppDelegate` (`AppDelegate.dfy`): class `AppDelegate`, the same pipeline
  with 100 tracked points, a scale of 100, and no chart.

Three behaviours of the code differ from a textbook fixed-capacity window,
and the model keeps them as the code has them:

- The fill loop runs over the closed range `0...dataPointsToTrack`, so the
  history holds `dataPointsToTrack + 1` entries: 31 in `Decibel` and 101 in
  `AppDelegate`. It does not hold exactly the capacity.
- `getData` plots only the first `dataPointsToTrack` entries. The newest
  entry, at the last index, is never shown.
- On an empty queue, `addToQueue` leaves the queue empty. It does not trap.

## Model

| member | source | states |
|---|---|---|
| ContentView.Decibel.constructor | LSVT/ContentView.swift:32-40 | a new `Decibel` starts with an empty `queue` and `dataPointsToTrack` equal to 30 |
| AppDelegate.AppDelegate.constructor | LSVT/AppDelegate.swift:16-19 | a new `AppDelegate` starts with an empty `queue` and `dataPointsToTrack` equal to 100 |
| LevelMeter.UnitLevel | LSVT/ContentView.swift:69-85 | the unscaled `level` lies in [0, 1]; it is 0 exactly when the reading is at or below the -60 dBFS floor, and 1 exactly when the reading is at or above 0 dBFS |
| LevelMeter.CurveAtFloor | LSVT/ContentView.swift:77-83 | the formula branch gives 0 at exactly -60 dBFS, because `amp` and `minAmp` are then the same value, so `adjAmp` is 0; the formula agrees with the lower clamp there |
| LevelMeter.CurveAtZero | LSVT/ContentView.swift:75-83 | the formula branch reaches 1 at 0 dBFS, so it agrees with the upper clamp there |
| LevelMeter.UnitLevelMonotone | LSVT/ContentView.swift:73-85 | for all readings x1 <= x2, the level of x1 is at most the level of x2, across all three branches |
| LevelMeter.UnitLevelStrict | LSVT/ContentView.swift:77-83 | between -60 dBFS and 0 dBFS the level strictly increases with the reading |
| ContentView.Decibel.DbfsToDb | LSVT/ContentView.swift:69-86 | the result lies in [0, 120]; it is 0 exactly for readings at or below -60 and 120 exactly for readings at or above 0; so a reading in [-60, 0) maps into [0, 120) |
| ContentView.DbfsToDbMonotone | LSVT/ContentView.swift:73-85 | the 120-scaled level is non-decreasing in the reading everywhere, and strictly increasing on [-60, 0) |
| AppDelegate.AppDelegate.DbfsToDb | LSVT/AppDelegate.swift:24-44 | the result lies in [0, 100]; it is 0 exactly for readings at or below -60 and 100 exactly for readings at or above 0; so a reading in [-60, 0) maps into [0, 100) |
| AppDelegate.DbfsToDbMonotone | LSVT/AppDelegate.swift:31-43 | the 100-scaled level is non-decreasing in the reading everywhere, and strictly increasing on [-60, 0) |
| SlidingWindow.Shifted | LSVT/ContentView.swift:112-115 | one append-then-remove-first keeps the length; a non-empty history becomes `old[1..] + [x]`, with `x` as the newest entry; an empty history stays empty |
| SlidingWindow.PushAll | LSVT/AppDelegate.swift:67-70 | any number of pushes, in order, leaves the history's length unchanged |
| SlidingWindow.PushAllSuffix | LSVT/ContentView.swift:112-115 | after k pushes with k at most the length, the history is the old contents without their k oldest entries, followed by the k pushed values in push order |
| SlidingWindow.PushAllFromZeros | LSVT/ContentView.swift:91-93 | after k <= n pushes onto n zeros, the first n - k entries are still 0 and the last k are the pushed values in push order |
| SlidingWindow.PushAllKeepsLatest | LSVT/AppDelegate.swift:67-70 | after at least as many pushes as the length, the history holds exactly the most recent pushed values, in push order |
| ContentView.Decibel.Setup | LSVT/ContentView.swift:89-93 | the fill loop appends exactly `dataPointsToTrack + 1` zeros after the existing contents, because it runs over the closed range `0...n`; it requires `dataPointsToTrack >= 0`, since the range traps otherwise |
| AppDelegate.AppDelegate.Setup | LSVT/AppDelegate.swift:47-51 | the fill loop appends exactly `dataPointsToTrack + 1` zeros (101 by default) after the existing contents |
| ContentView.Decibel.AddToQueue | LSVT/ContentView.swift:112-115 | the queue keeps its length; a non-empty queue becomes `old[1..] + [data]`; an empty queue stays empty; `dataPointsToTrack` is unchanged |
| AppDelegate.AppDelegate.AddToQueue | LSVT/AppDelegate.swift:67-70 | the queue keeps its length; a non-empty queue becomes `old[1..] + [data]`; an empty queue stays empty |
| ContentView.Decibel.Tick | LSVT/ContentView.swift:99-103 | the counter goes up by exactly 1; exactly one converted reading is pushed; the queue keeps its length |
| AppDelegate.AppDelegate.Tick | LSVT/AppDelegate.swift:57-63 | the counter goes up by exactly 1; exactly one converted reading is pushed; the queue keeps its length |
| ContentView.Decibel.RunTimer | LSVT/ContentView.swift:91-103 | k firings, in order, raise the counter by k and push the k converted readings in order; from the zero-filled state with k <= n + 1, the queue is n + 1 - k zeros followed by the k levels |
| AppDelegate.AppDelegate.RunTimer | LSVT/AppDelegate.swift:49-63 | k firings, in order, raise the counter by k and push the k converted readings in order; from the zero-filled state with k <= n + 1, the queue is n + 1 - k zeros followed by the k levels |
| ContentView.Decibel.GetData | LSVT/ContentView.swift:47-52 | builds exactly `dataPointsToTrack` points; point k has x = k and y = `queue[k]`; the y values are the first `dataPointsToTrack` entries of the queue; it requires `0 <= dataPointsToTrack <= queue.count`, since the range and the indexing trap otherwise |
| ContentView.ChartOmitsNewest | LSVT/ContentView.swift:47-52 | after `setup` and at least one tick, the plotted y values followed by the level of the latest reading are exactly the whole queue, so the newest reading is never plotted; with k <= n + 1 readings, the chart shows n + 1 - k zeros and then every level except the latest, in reading order |

## Left out

- Float arithmetic: levels are reals. `powf` is kept abstract as `MathLib`, so single-precision rounding, NaN and infinities are not modelled.
- The concrete value of the floor amplitude (10^-3) and of the curve between the seams are not modelled. Only the properties listed in `MathLib.Valid` are used.
- The behaviour of the level as a limit when the reading approaches 0 dBFS is not stated. The model states only that the formula reaches full scale at 0 dBFS (`CurveAtZero`).
- ContentView.Decibel.Tick: the counter `i` is an unbounded integer, so Swift's overflow trap at `Int.max` is not modelled.
- AppDelegate.AppDelegate.Tick: the counter `i` is an unbounded integer, so Swift's overflow trap at `Int.max` is not modelled; the `print` of the counter and level is left out.
- The recorder (`updateMeters`, `peakPower(forChannel: 0)`) is external I/O. Each reading is a parameter of `Tick`, or an element of the `RunTimer` sequence.
- The Dispatch timer, its concurrent queue, `[weak self]` and the `DispatchQueue.main.async` redraw are left out. The timer writes `queue` while the main thread reads it, without synchronisation. The model runs ticks one after another, so it does not capture that race.
- `setup` creates and starts the timer after the fill loop. `Setup` models only the fill loop, and the timer's firings are `RunTimer`. The counter `i` is local to `setup`, so the model passes it in and out of `Tick`.
- The chart styling in `getData` (line width, colours, the three threshold band data sets) is left out because it is presentation. The `initialize` method is left out for the same reason: its band lines have constant y values of 60, 80 and 120, it configures the audio session and recorder, and it sets the chart axes.
- The SwiftUI views (`ContentView`, `LineChartSwiftUI`), the `AppDelegate` scene lifecycle methods, audio session setup, the permission request and the recorder's creation are left out. They are platform calls.
- A missed reading, idempotent start and stop, and validation of the configuration are left out because the code has none of them. The recorder always returns a reading, and nothing checks `dataPointsToTrack` beyond the traps named above.
