/**
 * The dwell selector both text-entry pages run in their gaze listener: it tracks the
 * region being looked at and when it was entered, and arms `activeRegion` once a
 * non-centre region has been held for `GAZE_THRESHOLD` milliseconds. The commit
 * effect consumes the armed region and clears the start time, so a region that is
 * held on after a selection does not fire again until the gaze leaves it.
 */
module Dwell {
  import opened Wrappers
  import opened GazeRegions

  datatype DwellState = DwellState(currentGaze: Region, gazeStartTime: Option<int>, activeRegion: Option<Region>)

  /** `currentGaze = "center"`, `gazeStartTime = null`, `activeRegion = null`. */
  const INITIAL: DwellState := DwellState(Center, None, None)

  /** JavaScript truthiness of `gazeStartTime`: null and 0 are both falsy. */
  predicate Started(t: Option<int>) {
    t.Some? && t.value != 0
  }

  /**
   * What every reachable state satisfies: a pending selection is the region currently
   * looked at and is never the centre, and the centre never carries a start time.
   */
  predicate Inv(s: DwellState) {
    && (s.activeRegion.Some? ==> s.activeRegion.value == s.currentGaze && s.currentGaze != Center)
    && (s.currentGaze == Center ==> s.gazeStartTime.None?)
  }

  lemma InitialInv()
    ensures Inv(INITIAL)
  {
  }

  /** One call of the gaze listener with an already classified region, at time `now`. */
  function Listen(s: DwellState, region: Region, now: int): (r: DwellState)
    ensures r.currentGaze == region
    ensures Inv(s) ==> Inv(r)
  {
    if region != s.currentGaze then
      DwellState(region, if region == Center then None else Some(now), None)
    else if region != Center && Started(s.gazeStartTime) then
      if now - s.gazeStartTime.value >= GAZE_THRESHOLD && s.activeRegion.None? then
        s.(activeRegion := Some(region))
      else
        s
    else
      s
  }

  /** The tail of the commit effect: `setActiveRegion(null); setGazeStartTime(null)`. */
  function Consume(s: DwellState): (r: DwellState)
    ensures r.currentGaze == s.currentGaze && r.activeRegion.None? && r.gazeStartTime.None?
    ensures Inv(r)
  {
    DwellState(s.currentGaze, None, None)
  }

  /**
   * A region change restarts the dwell: the new region is tracked, its start time is
   * `now` (none for the centre) and any pending selection is dropped.
   */
  lemma RegionChangeRestarts(s: DwellState, region: Region, now: int)
    requires region != s.currentGaze
    ensures Listen(s, region, now).activeRegion.None?
    ensures Listen(s, region, now).gazeStartTime == if region == Center then None else Some(now)
  {
  }

  /**
   * A listener call arms a selection exactly when nothing is pending and the same
   * non-centre region has been held, from a truthy start time, for at least the threshold;
   * what it arms is that region.
   */
  lemma ArmsExactlyWhenHeld(s: DwellState, region: Region, now: int)
    ensures (s.activeRegion.None? && Listen(s, region, now).activeRegion.Some?) <==>
            (&& s.activeRegion.None? && region == s.currentGaze && region != Center
             && Started(s.gazeStartTime) && now - s.gazeStartTime.value >= GAZE_THRESHOLD)
    ensures Inv(s) && Listen(s, region, now).activeRegion.Some? ==> Listen(s, region, now).activeRegion == Some(region)
  {
  }

  /** After a commit, listener calls that keep seeing the same region change nothing. */
  lemma {:induction false} HeldAfterCommitIsInert(s: DwellState, regions: seq<Region>, times: seq<int>)
    requires s.gazeStartTime.None?
    requires |times| == |regions|
    requires forall i :: 0 <= i < |regions| ==> regions[i] == s.currentGaze
    ensures ListenAll(s, regions, times) == s
  {
    if regions != [] {
      assert Listen(s, regions[0], times[0]) == s;
      HeldAfterCommitIsInert(s, regions[1..], times[1..]);
    }
  }

  /** Listener calls in sequence, with no commit in between. */
  function ListenAll(s: DwellState, regions: seq<Region>, times: seq<int>): (r: DwellState)
    requires |times| == |regions|
    ensures Inv(s) ==> Inv(r)
    decreases |regions|
  {
    if regions == [] then s else ListenAll(Listen(s, regions[0], times[0]), regions[1..], times[1..])
  }

  /** One classified gaze sample. */
  datatype Sample = Sample(region: Region, now: int)

  /**
   * One listener call followed by the commit effect when the call armed a selection:
   * the pair is the new state and whether a selection fired.
   */
  function Cycle(s: DwellState, x: Sample): (r: (DwellState, bool))
    ensures r.0.activeRegion.None? && r.0.currentGaze == x.region
    ensures r.1 ==> r.0.gazeStartTime.None?
  {
    var t := Listen(s, x.region, x.now);
    if t.activeRegion.Some? then (Consume(t), true) else (t, false)
  }

  /** The state after a run of samples. */
  function Final(s: DwellState, xs: seq<Sample>): DwellState
    decreases |xs|
  {
    if xs == [] then s else Final(Cycle(s, xs[0]).0, xs[1..])
  }

  /** How many selections a run of samples fires. */
  function Fires(s: DwellState, xs: seq<Sample>): nat
    decreases |xs|
  {
    if xs == [] then 0
    else var c := Cycle(s, xs[0]); (if c.1 then 1 else 0) + Fires(c.0, xs[1..])
  }

  predicate AllIn(xs: seq<Sample>, region: Region) {
    forall i :: 0 <= i < |xs| ==> xs[i].region == region
  }

  predicate Reaches(xs: seq<Sample>, deadline: int) {
    exists i :: 0 <= i < |xs| && xs[i].now >= deadline
  }

  /** A run ends looking at the region of its last sample, with nothing pending. */
  lemma {:induction false} FinalLooksAtLast(s: DwellState, xs: seq<Sample>)
    requires xs != []
    ensures Final(s, xs).currentGaze == xs[|xs| - 1].region
    ensures Final(s, xs).activeRegion.None?
    decreases |xs|
  {
    if |xs| > 1 {
      FinalLooksAtLast(Cycle(s, xs[0]).0, xs[1..]);
    }
  }

  /** Selections fired by two runs back to back add up. */
  lemma {:induction false} FiresAppend(s: DwellState, xs: seq<Sample>, ys: seq<Sample>)
    ensures Fires(s, xs + ys) == Fires(s, xs) + Fires(Final(s, xs), ys)
    ensures Final(s, xs + ys) == Final(Final(s, xs), ys)
    decreases |xs|
  {
    if xs != [] {
      assert (xs + ys)[0] == xs[0] && (xs + ys)[1..] == xs[1..] + ys;
      FiresAppend(Cycle(s, xs[0]).0, xs[1..], ys);
    } else {
      assert xs + ys == ys;
    }
  }

  /** Once consumed, a region that stays looked at never fires again. */
  lemma {:induction false} NoRefireWhileHeld(s: DwellState, xs: seq<Sample>)
    requires s.gazeStartTime.None? && s.activeRegion.None?
    requires AllIn(xs, s.currentGaze)
    ensures Fires(s, xs) == 0
  {
    if xs != [] {
      assert Listen(s, xs[0].region, xs[0].now) == s;
      NoRefireWhileHeld(s, xs[1..]);
    }
  }

  /**
   * While a non-centre region is being timed from a truthy start `t0`, it fires exactly
   * once if some sample reaches `t0 + GAZE_THRESHOLD`, and not at all otherwise.
   */
  lemma {:induction false} TimedRegionFiresOnceAtDeadline(region: Region, t0: int, xs: seq<Sample>)
    requires region != Center && t0 != 0
    requires AllIn(xs, region)
    ensures Fires(DwellState(region, Some(t0), None), xs) == if Reaches(xs, t0 + GAZE_THRESHOLD) then 1 else 0
  {
    var s := DwellState(region, Some(t0), None);
    if xs != [] {
      if xs[0].now >= t0 + GAZE_THRESHOLD {
        var c := Cycle(s, xs[0]);
        assert c == (DwellState(region, None, None), true);
        NoRefireWhileHeld(c.0, xs[1..]);
      } else {
        assert Cycle(s, xs[0]) == (s, false);
        TimedRegionFiresOnceAtDeadline(region, t0, xs[1..]);
        if Reaches(xs, t0 + GAZE_THRESHOLD) {
          var i :| 0 <= i < |xs| && xs[i].now >= t0 + GAZE_THRESHOLD;
          assert xs[1..][i - 1] == xs[i];
        }
        if Reaches(xs[1..], t0 + GAZE_THRESHOLD) {
          var i :| 0 <= i < |xs[1..]| && xs[1..][i].now >= t0 + GAZE_THRESHOLD;
          assert xs[i + 1] == xs[1..][i];
        }
      }
    }
  }

  /**
   * Moving the gaze onto a new non-centre region at a truthy time `t0` and holding it
   * fires exactly one selection if the hold lasts the threshold, and none otherwise:
   * holding for twice the threshold still fires once.
   */
  lemma {:induction false} HeldRegionFiresOnce(s: DwellState, region: Region, t0: int, xs: seq<Sample>)
    requires region != s.currentGaze && region != Center && t0 != 0
    requires AllIn(xs, region)
    ensures Fires(s, [Sample(region, t0)] + xs) == if Reaches(xs, t0 + GAZE_THRESHOLD) then 1 else 0
  {
    var ys := [Sample(region, t0)] + xs;
    assert ys[0] == Sample(region, t0) && ys[1..] == xs;
    assert Cycle(s, ys[0]) == (DwellState(region, Some(t0), None), false);
    TimedRegionFiresOnceAtDeadline(region, t0, xs);
  }

  /** Any run of samples that all see one region fires at most once. */
  lemma {:induction false} HeldRegionFiresAtMostOnce(s: DwellState, region: Region, xs: seq<Sample>)
    requires s.activeRegion.None?
    requires AllIn(xs, region)
    ensures Fires(s, xs) <= 1
    decreases |xs|
  {
    if xs != [] {
      var c := Cycle(s, xs[0]);
      if c.1 {
        NoRefireWhileHeld(c.0, xs[1..]);
      } else {
        HeldRegionFiresAtMostOnce(c.0, region, xs[1..]);
      }
    }
  }

  /**
   * Looking at `a` past the threshold, then at `b`, then at `a` again fires three
   * selections, in that order of regions.
   */
  lemma ReturningToARegionRearms(a: Region, b: Region, t0: int, t1: int, t2: int)
    requires a != b && a != Center && b != Center
    requires 0 < t0 && t0 + GAZE_THRESHOLD < t1 && t1 + GAZE_THRESHOLD < t2
    ensures Fires(INITIAL, Hold(a, t0) + Hold(b, t1) + Hold(a, t2)) == 3
  {
    var xa, xb, xc := Hold(a, t0), Hold(b, t1), Hold(a, t2);
    FiresAppend(INITIAL, xa + xb, xc);
    FiresAppend(INITIAL, xa, xb);
    HeldTwice(INITIAL, a, t0);
    FinalLooksAtLast(INITIAL, xa);
    var s1 := Final(INITIAL, xa);
    HeldTwice(s1, b, t1);
    FinalLooksAtLast(s1, xb);
    FinalLooksAtLast(INITIAL, xa + xb);
    HeldTwice(Final(INITIAL, xa + xb), a, t2);
  }

  /** Entering `region` at `t` and still seeing it at the deadline. */
  function Hold(region: Region, t: int): seq<Sample> {
    [Sample(region, t), Sample(region, t + GAZE_THRESHOLD)]
  }

  lemma HeldTwice(s: DwellState, region: Region, t: int)
    requires region != s.currentGaze && region != Center && t != 0
    ensures Fires(s, Hold(region, t)) == 1
  {
    var xs := [Sample(region, t + GAZE_THRESHOLD)];
    assert Hold(region, t) == [Sample(region, t)] + xs;
    assert Reaches(xs, t + GAZE_THRESHOLD) by { assert xs[0].now >= t + GAZE_THRESHOLD; }
    HeldRegionFiresOnce(s, region, t, xs);
  }
}
