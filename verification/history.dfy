/**
 * The rain history of an "_hour" entity: a queue of (value, timestamp) samples. Every append
 * is followed by eviction, from the front only, of samples older than `maxAge` seconds
 * before the clock reading `now`.
 */
module History {
  import opened Wrappers

  datatype Sample = Sample(value: real, ts: int)

  /**
   * What the eviction loop leaves of `s`: front samples are dropped while their timestamp is
   * before `cutoff`; the first sample at or after `cutoff` stops the loop.
   */
  function Evict(s: seq<Sample>, cutoff: int): (r: seq<Sample>)
    ensures |r| <= |s| && r == s[|s| - |r|..]
    ensures r == [] || r[0].ts >= cutoff
    ensures forall i :: 0 <= i < |s| - |r| ==> s[i].ts < cutoff
    decreases |s|
  {
    if s != [] && s[0].ts < cutoff then Evict(s[1..], cutoff) else s
  }

  function Last(s: seq<Sample>): Sample
    requires s != []
  {
    s[|s| - 1]
  }

  /** Timestamps never decrease from front to back. */
  ghost predicate Chronological(s: seq<Sample>) {
    forall i, j :: 0 <= i < j < |s| ==> s[i].ts <= s[j].ts
  }

  /** Eviction from a chronological history leaves only samples inside the window. */
  lemma EvictedWithinWindow(s: seq<Sample>, cutoff: int)
    requires Chronological(s)
    ensures Chronological(Evict(s, cutoff))
    ensures forall i :: 0 <= i < |Evict(s, cutoff)| ==> Evict(s, cutoff)[i].ts >= cutoff
  {
    var r := Evict(s, cutoff);
    var k := |s| - |r|;
    forall i | 0 <= i < |r|
      ensures r[i].ts >= cutoff
    {
      assert r[i] == s[k + i] && r[0] == s[k];
    }
  }

  /** Eviction drops nothing when every sample is inside the window. */
  lemma {:induction false} EvictKeepsRecent(s: seq<Sample>, cutoff: int)
    requires forall i :: 0 <= i < |s| ==> s[i].ts >= cutoff
    ensures Evict(s, cutoff) == s
  {
  }

  /** Appending a sample no older than the newest one keeps a history chronological. */
  lemma AppendChronological(s: seq<Sample>, x: Sample)
    requires Chronological(s)
    requires s == [] || s[|s| - 1].ts <= x.ts
    ensures Chronological(s + [x])
  {
    var t := s + [x];
    forall i, j | 0 <= i < j < |t|
      ensures t[i].ts <= t[j].ts
    {
      if j < |s| {
        assert t[i] == s[i] && t[j] == s[j];
      } else {
        assert t[i] == s[i] && s[i].ts <= s[|s| - 1].ts;
      }
    }
  }

  /**
   * Appending a sample no older than the newest one and evicting keeps the history
   * chronological, keeps the new sample at the back, and leaves only samples in the window.
   */
  lemma AppendAndEvict(s: seq<Sample>, x: Sample, cutoff: int)
    requires Chronological(s)
    requires s == [] || s[|s| - 1].ts <= x.ts
    requires x.ts >= cutoff
    ensures Chronological(Evict(s + [x], cutoff))
    ensures forall i :: 0 <= i < |Evict(s + [x], cutoff)| ==> Evict(s + [x], cutoff)[i].ts >= cutoff
    ensures Evict(s + [x], cutoff) != [] && Last(Evict(s + [x], cutoff)) == x
  {
    var t := s + [x];
    AppendChronological(s, x);
    EvictedWithinWindow(t, cutoff);
    LastSurvives(t, cutoff);
  }

  /** The back sample survives eviction when it is inside the window. */
  lemma LastSurvives(t: seq<Sample>, cutoff: int)
    requires t != [] && Last(t).ts >= cutoff
    ensures Evict(t, cutoff) != [] && Last(Evict(t, cutoff)) == Last(t)
  {
    var r := Evict(t, cutoff);
    assert t[|t| - 1].ts >= cutoff;
    assert |r| >= 1;
  }

  class SensorHistory {
    /** The window length in seconds. */
    const maxAge: int
    /** The samples, oldest (front) first. */
    var data: seq<Sample>

    constructor (maxAgeMinutes: int)
      ensures maxAge == maxAgeMinutes * 60
      ensures data == []
    {
      maxAge := maxAgeMinutes * 60;
      data := [];
    }

    /** Appends `(value, ts)` at the back, then evicts against the clock reading `now`. */
    method AddMeasurement(value: real, ts: int, now: int)
      modifies this
      ensures data == Evict(old(data) + [Sample(value, ts)], now - maxAge)
    {
      data := data + [Sample(value, ts)];
      Cleanup(now);
    }

    /** Pops from the front while the front sample is older than `now - maxAge`. */
    method Cleanup(now: int)
      modifies this
      ensures data == Evict(old(data), now - maxAge)
    {
      var run := 1;
      while data != [] && run == 1
        invariant run == 0 || run == 1
        invariant Evict(data, now - maxAge) == Evict(old(data), now - maxAge)
        invariant run == 0 ==> data != [] && data[0].ts >= now - maxAge
        decreases |data| + run
      {
        var ts1 := data[0].ts;
        var ts2 := now - maxAge;
        if ts1 < ts2 {
          data := data[1..];
        } else {
          run := 0;
        }
      }
    }

    /** The front and back samples, or (None, None) when the history is empty. */
    method GetOldestAndNewest() returns (oldest: Option<Sample>, newest: Option<Sample>)
      ensures oldest.None? <==> data == []
      ensures newest.None? <==> data == []
      ensures data != [] ==> oldest == Some(data[0]) && newest == Some(data[|data| - 1])
    {
      if data == [] {
        return None, None;
      }
      return Some(data[0]), Some(data[|data| - 1]);
    }
  }
}
