/** The `Decibel` meter behind the chart view: a 31-entry history (30 tracked
    points plus one), levels scaled to 0..120, and the chart projection. */
module ContentView {
  import opened LevelMeter
  import opened SlidingWindow

  /** The factor `dBFS_convertTo_dB` multiplies the unit level by. */
  const Scale: real := 120.0

  /** One chart point (`ChartDataEntry`): x is the position in the history,
      y the level stored there. */
  datatype ChartEntry = ChartEntry(x: real, y: real)

  /** The points `getData` plots from window `q`: the first `n` entries, each
      at its own index. */
  function ChartEntries(q: seq<real>, n: nat): seq<ChartEntry>
    requires n <= |q|
  {
    seq(n, k requires 0 <= k < n => ChartEntry(k as real, q[k]))
  }

  /** The y coordinates of a list of chart points, in order. */
  function YValues(es: seq<ChartEntry>): seq<real> {
    seq(|es|, k requires 0 <= k < |es| => es[k].y)
  }

  class Decibel {
    var queue: seq<real>
    var dataPointsToTrack: int

    constructor ()
      ensures queue == [] && dataPointsToTrack == 30
    {
      queue := [];
      dataPointsToTrack := 30;
    }

    /** `dBFS_convertTo_dB`: 0 up to the floor, 120 from 0 dBFS on, strictly
        between them in the middle branch. */
    static function DbfsToDb(dbfsValue: real, m: MathLib): (r: real)
      requires m.Valid()
      ensures 0.0 <= r <= 120.0
      ensures r == 0.0 <==> dbfsValue <= PeakBottom
      ensures r == 120.0 <==> 0.0 <= dbfsValue
    {
      UnitLevel(dbfsValue, m) * Scale
    }

    /** `getData`, without its styling: one point per tracked entry, point
        `k` at x = `k` with the level `queue[k]`. The source indexes
        `queue[count]` for every `count < dataPointsToTrack`, so the queue
        must hold at least that many entries. */
    method GetData() returns (points: seq<ChartEntry>)
      requires 0 <= dataPointsToTrack <= |queue|
      ensures |points| == dataPointsToTrack
      ensures points == ChartEntries(queue, dataPointsToTrack)
      ensures YValues(points) == queue[..dataPointsToTrack]
    {
      var dataPoints: seq<ChartEntry> := [];
      for count := 0 to dataPointsToTrack
        invariant |dataPoints| == count
        invariant forall k :: 0 <= k < count ==> dataPoints[k] == ChartEntry(k as real, queue[k])
      {
        dataPoints := dataPoints + [ChartEntry(count as real, queue[count])];
      }
      points := dataPoints;
    }

    /** The zero-fill loop of `setup`. It runs over the closed range
        `0...dataPointsToTrack`, so it appends `dataPointsToTrack + 1` zeros;
        the range traps when `dataPointsToTrack` is negative. */
    method Setup()
      requires 0 <= dataPointsToTrack
      modifies this`queue
      ensures dataPointsToTrack == old(dataPointsToTrack)
      ensures queue == old(queue) + Zeros(dataPointsToTrack + 1)
    {
      for k := 0 to dataPointsToTrack + 1
        invariant queue == old(queue) + Zeros(k)
      {
        queue := queue + [0.0];
      }
    }

    /** `addToQueue`: append, then remove the first element. */
    method AddToQueue(data: real)
      modifies this`queue
      ensures dataPointsToTrack == old(dataPointsToTrack)
      ensures queue == Shifted(old(queue), data)
      ensures |queue| == |old(queue)|
      ensures old(queue) != [] ==> queue == old(queue)[1..] + [data]
      ensures old(queue) == [] ==> queue == []
    {
      queue := queue + [data];
      queue := queue[1..];
    }

    /** One run of the timer's event handler: convert the recorder's peak
        power `peakPower`, count the tick in `i` and push the level. */
    method Tick(i: int, peakPower: real, m: MathLib) returns (next: int)
      requires m.Valid()
      modifies this`queue
      ensures next == i + 1
      ensures dataPointsToTrack == old(dataPointsToTrack)
      ensures queue == Shifted(old(queue), DbfsToDb(peakPower, m))
      ensures |queue| == |old(queue)|
    {
      var decibel := DbfsToDb(peakPower, m);
      next := i + 1;
      AddToQueue(decibel);
    }

    /** The timer firing once per element of `peakPowers`, in order, each
        firing running `Tick` to completion before the next. */
    method RunTimer(i: int, peakPowers: seq<real>, m: MathLib) returns (next: int)
      requires m.Valid()
      modifies this`queue
      ensures next == i + |peakPowers|
      ensures dataPointsToTrack == old(dataPointsToTrack)
      ensures queue == PushAll(old(queue), Levels(peakPowers, Scale, m))
      ensures 0 <= dataPointsToTrack && old(queue) == Zeros(dataPointsToTrack + 1) &&
              |peakPowers| <= dataPointsToTrack + 1 ==>
                queue == Zeros(dataPointsToTrack + 1 - |peakPowers|) + Levels(peakPowers, Scale, m)
    {
      ghost var levels := Levels(peakPowers, Scale, m);
      next := i;
      for t := 0 to |peakPowers|
        invariant next == i + t
        invariant queue == PushAll(old(queue), levels[..t])
      {
        assert levels[t] == DbfsToDb(peakPowers[t], m);
        next := Tick(next, peakPowers[t], m);
        PushAllSnoc(old(queue), levels[..t], levels[t]);
        assert levels[..t + 1] == levels[..t] + [levels[t]];
      }
      assert levels[..|peakPowers|] == levels;
      if 0 <= dataPointsToTrack && |peakPowers| <= dataPointsToTrack + 1 {
        PushAllFromZeros(dataPointsToTrack + 1, levels);
      }
    }
  }

  /** The displayed level never decreases as the reading rises, and it
      strictly increases between the floor and 0 dBFS. */
  lemma DbfsToDbMonotone(x1: real, x2: real, m: MathLib)
    requires m.Valid() && x1 <= x2
    ensures Decibel.DbfsToDb(x1, m) <= Decibel.DbfsToDb(x2, m)
    ensures PeakBottom <= x1 < x2 < 0.0 ==> Decibel.DbfsToDb(x1, m) < Decibel.DbfsToDb(x2, m)
  {
    UnitLevelMonotone(m, x1, x2);
    if PeakBottom <= x1 < x2 < 0.0 {
      UnitLevelStrict(m, x1, x2);
    }
  }

  /** The chart never shows the newest reading. After `setup` (n + 1 zeros)
      and at least one tick, the plotted y values followed by the level of
      the latest reading are exactly the whole history: the entry at index
      `n` is the newest one and `getData` stops just before it. While no more
      than n + 1 readings have arrived, the chart shows the remaining zeros
      followed by every level but the latest, in reading order. */
  lemma ChartOmitsNewest(n: nat, readings: seq<real>, m: MathLib)
    requires m.Valid() && readings != []
    ensures var q := PushAll(Zeros(n + 1), Levels(readings, Scale, m));
            YValues(ChartEntries(q, n)) + [Decibel.DbfsToDb(readings[|readings| - 1], m)] == q
    ensures |readings| <= n + 1 ==>
              var levels := Levels(readings, Scale, m);
              YValues(ChartEntries(PushAll(Zeros(n + 1), levels), n))
                == Zeros(n + 1 - |readings|) + levels[..|levels| - 1]
  {
    var levels := Levels(readings, Scale, m);
    var q := PushAll(Zeros(n + 1), levels);
    PushAllNewest(Zeros(n + 1), levels);
    assert YValues(ChartEntries(q, n)) == q[..n];
    if |readings| <= n + 1 {
      PushAllFromZeros(n + 1, levels);
      assert q[..n] == Zeros(n + 1 - |readings|) + levels[..|levels| - 1];
    }
  }
}
