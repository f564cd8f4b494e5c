/** The offsets at which the stable phase's color changes are scheduled. */
module ColorSchedule {

  import opened Timing

  /** Delays, from the moment of scheduling, of `times` events spaced `interval` apart. */
  function ColorOffsets(interval: int, times: nat): (r: seq<int>)
    ensures |r| == times
    ensures forall i :: 0 <= i < times ==> r[i] == i * interval
  {
    seq(times, i => i * interval)
  }

  /** With a positive spacing the offsets start at zero, strictly increase and stay below `times * interval`. */
  lemma OffsetsAscending(interval: int, times: nat)
    requires interval > 0
    ensures forall i, j :: 0 <= i < j < times ==> ColorOffsets(interval, times)[i] < ColorOffsets(interval, times)[j]
    ensures forall i :: 0 <= i < times ==> 0 <= ColorOffsets(interval, times)[i] < times * interval
  {
    var r := ColorOffsets(interval, times);
    forall i, j | 0 <= i < j < times
      ensures r[i] < r[j]
    {
      assert r[j] - r[i] == (j - i) * interval;
    }
    forall i | 0 <= i < times
      ensures 0 <= r[i] < times * interval
    {
      assert times * interval - r[i] == (times - i) * interval;
    }
  }

  /** The stable phase's three color changes come at 0, 2 and 4 seconds, all before the phase ends. */
  lemma StableSchedule()
    ensures ColorOffsets(StableTime / 3, 3) == [0, 2 * TenthsPerSecond, 4 * TenthsPerSecond]
    ensures forall i :: 0 <= i < 3 ==> 0 <= ColorOffsets(StableTime / 3, 3)[i] < StableTime
  {
  }
}
