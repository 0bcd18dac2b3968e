/** The application delegate's copy of the meter: a 101-entry history (100
    tracked points plus one) and levels scaled to 0..100. It has no chart. */
module AppDelegate {
  import opened LevelMeter
  import opened SlidingWindow

  /** The factor `dBFS_convertTo_dB` multiplies the unit level by. */
  const Scale: real := 100.0

  class AppDelegate {
    var queue: seq<real>
    var dataPointsToTrack: int

    constructor ()
      ensures queue == [] && dataPointsToTrack == 100
    {
      queue := [];
      dataPointsToTrack := 100;
    }

    /** `dBFS_convertTo_dB`: 0 up to the floor, 100 from 0 dBFS on, strictly
        between them in the middle branch. */
    static function DbfsToDb(dbfsValue: real, m: MathLib): (r: real)
      requires m.Valid()
      ensures 0.0 <= r <= 100.0
      ensures r == 0.0 <==> dbfsValue <= PeakBottom
      ensures r == 100.0 <==> 0.0 <= dbfsValue
    {
      UnitLevel(dbfsValue, m) * Scale
    }

    /** The zero-fill loop of `setup`. It runs over the closed range
        `0...dataPointsToTrack`, so it appends `dataPointsToTrack + 1` zeros;
        the range traps when `dataPointsToTrack` is negative. */
    method Setup()
      requires 0 <= dataPointsToTrack
      modifies this`queue
      ensures dataPointsToTrack == old(dataPointsToTrack)
      ensures queue == old(queue) + Zeros(dataPointsToTrack + 1)
    {
      for k := 0 to dataPointsToTrack + 1
        invariant queue == old(queue) + Zeros(k)
      {
        queue := queue + [0.0];
      }
    }

    /** `addToQueue`: append, then remove the first element. */
    method AddToQueue(data: real)
      modifies this`queue
      ensures dataPointsToTrack == old(dataPointsToTrack)
      ensures queue == Shifted(old(queue), data)
      ensures |queue| == |old(queue)|
      ensures old(queue) != [] ==> queue == old(queue)[1..] + [data]
      ensures old(queue) == [] ==> queue == []
    {
      queue := queue + [data];
      queue := queue[1..];
    }

    /** One run of the timer's event handler: convert the recorder's peak
        power `peakPower`, count the tick in `i` and push the level. */
    method Tick(i: int, peakPower: real, m: MathLib) returns (next: int)
      requires m.Valid()
      modifies this`queue
      ensures next == i + 1
      ensures dataPointsToTrack == old(dataPointsToTrack)
      ensures queue == Shifted(old(queue), DbfsToDb(peakPower, m))
      ensures |queue| == |old(queue)|
    {
      var decibel := DbfsToDb(peakPower, m);
      next := i + 1;
      AddToQueue(decibel);
    }

    /** The timer firing once per element of `peakPowers`, in order, each
        firing running `Tick` to completion before the next. */
    method RunTimer(i: int, peakPowers: seq<real>, m: MathLib) returns (next: int)
      requires m.Valid()
      modifies this`queue
      ensures next == i + |peakPowers|
      ensures dataPointsToTrack == old(dataPointsToTrack)
      ensures queue == PushAll(old(queue), Levels(peakPowers, Scale, m))
      ensures 0 <= dataPointsToTrack && old(queue) == Zeros(dataPointsToTrack + 1) &&
              |peakPowers| <= dataPointsToTrack + 1 ==>
                queue == Zeros(dataPointsToTrack + 1 - |peakPowers|) + Levels(peakPowers, Scale, m)
    {
      ghost var levels := Levels(peakPowers, Scale, m);
      next := i;
      for t := 0 to |peakPowers|
        invariant next == i + t
        invariant queue == PushAll(old(queue), levels[..t])
      {
        assert levels[t] == DbfsToDb(peakPowers[t], m);
        next := Tick(next, peakPowers[t], m);
        PushAllSnoc(old(queue), levels[..t], levels[t]);
        assert levels[..t + 1] == levels[..t] + [levels[t]];
      }
      assert levels[..|peakPowers|] == levels;
      if 0 <= dataPointsToTrack && |peakPowers| <= dataPointsToTrack + 1 {
        PushAllFromZeros(dataPointsToTrack + 1, levels);
      }
    }
  }

  /** The displayed level never decreases as the reading rises, and it
      strictly increases between the floor and 0 dBFS. */
  lemma DbfsToDbMonotone(x1: real, x2: real, m: MathLib)
    requires m.Valid() && x1 <= x2
    ensures AppDelegate.DbfsToDb(x1, m) <= AppDelegate.DbfsToDb(x2, m)
    ensures PeakBottom <= x1 < x2 < 0.0 ==> AppDelegate.DbfsToDb(x1, m) < AppDelegate.DbfsToDb(x2, m)
  {
    UnitLevelMonotone(m, x1, x2);
    if PeakBottom <= x1 < x2 < 0.0 {
      UnitLevelStrict(m, x1, x2);
    }
  }
}
