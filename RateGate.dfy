/** The per-tick rate gate shared by the three recording loops: a tick stamped
    `cstamp` milliseconds is saved when `cstamp - c_incr >= c_interval`, and
    then `c_incr := cstamp`. */
module RateGate {

  /** Source framerate of every stream. */
  const FRAMERATE: int := 30
  /** At or above this requested framerate every tick is recorded. */
  const FRAMERATE_LIM: int := 28

  /** `static_cast<int>(1000 / colframerate)` for a whole-number framerate. */
  function Interval(fps: int): (i: int)
    requires fps >= 1
    ensures fps * i <= 1000 < fps * (i + 1)
  {
    1000 / fps
  }

  predicate Admits(stamp: int, last: int, interval: int) {
    stamp - last >= interval
  }

  /** The ticks the gate admits, in order, starting from gate value `last`. */
  function Admitted(ticks: seq<int>, last: int, interval: int): seq<int> {
    if ticks == [] then []
    else if Admits(ticks[0], last, interval) then [ticks[0]] + Admitted(ticks[1..], ticks[0], interval)
    else Admitted(ticks[1..], last, interval)
  }

  /** The items offered with `stamps`, in order, kept where the gate admits
      their stamp: one item for every admitted stamp. */
  function AdmittedItems<T>(items: seq<T>, stamps: seq<int>, last: int, interval: int): (r: seq<T>)
    requires |items| == |stamps|
    ensures |r| == |Admitted(stamps, last, interval)|
    decreases |items|
  {
    if items == [] then []
    else if Admits(stamps[0], last, interval) then [items[0]] + AdmittedItems(items[1..], stamps[1..], stamps[0], interval)
    else AdmittedItems(items[1..], stamps[1..], last, interval)
  }

  /** The gate value (`c_incr`) after the ticks have been offered. */
  function GateAfter(ticks: seq<int>, last: int, interval: int): int {
    if ticks == [] then last
    else GateAfter(ticks[1..], if Admits(ticks[0], last, interval) then ticks[0] else last, interval)
  }

  /** Admitted ticks are spaced by at least the interval: from the initial gate
      value to the first, and between any two consecutive ones. */
  lemma {:induction false} AdmittedSpacing(ticks: seq<int>, last: int, interval: int)
    ensures var a := Admitted(ticks, last, interval);
      && (|a| > 0 ==> a[0] - last >= interval)
      && forall i :: 0 <= i < |a| - 1 ==> a[i + 1] - a[i] >= interval
  {
    if ticks != [] {
      if Admits(ticks[0], last, interval) {
        AdmittedSpacing(ticks[1..], ticks[0], interval);
      } else {
        AdmittedSpacing(ticks[1..], last, interval);
      }
    }
  }

  /** Every admitted tick is one of the offered ticks, and no more ticks are
      admitted than offered. */
  lemma {:induction false} AdmittedAreTicks(ticks: seq<int>, last: int, interval: int)
    ensures |Admitted(ticks, last, interval)| <= |ticks|
    ensures forall t :: t in Admitted(ticks, last, interval) ==> t in ticks
  {
    if ticks != [] {
      var next := if Admits(ticks[0], last, interval) then ticks[0] else last;
      AdmittedAreTicks(ticks[1..], next, interval);
    }
  }

  /** The gate holds the last admitted tick, or its initial value when
      nothing was admitted. */
  lemma {:induction false} GateAfterIsLastAdmitted(ticks: seq<int>, last: int, interval: int)
    ensures var a := Admitted(ticks, last, interval);
      GateAfter(ticks, last, interval) == if a == [] then last else a[|a| - 1]
  {
    if ticks != [] {
      var next := if Admits(ticks[0], last, interval) then ticks[0] else last;
      GateAfterIsLastAdmitted(ticks[1..], next, interval);
    }
  }

  /** With `c_incr` starting at 0, the first recorded tick is the first one
      stamped at or after `c_interval`. */
  lemma {:induction false} FirstAdmission(ticks: seq<int>, interval: int, k: nat)
    requires k < |ticks| && ticks[k] >= interval
    requires forall i :: 0 <= i < k ==> ticks[i] < interval
    ensures Admitted(ticks, 0, interval) != [] && Admitted(ticks, 0, interval)[0] == ticks[k]
  {
    if k > 0 {
      assert forall i :: 0 <= i < k - 1 ==> ticks[1..][i] == ticks[i + 1];
      FirstAdmission(ticks[1..], interval, k - 1);
    }
  }

  /** And while no tick reaches `c_interval`, nothing is recorded. */
  lemma {:induction false} NoAdmission(ticks: seq<int>, interval: int)
    requires forall i :: 0 <= i < |ticks| ==> ticks[i] < interval
    ensures Admitted(ticks, 0, interval) == []
  {
    if ticks != [] {
      NoAdmission(ticks[1..], interval);
    }
  }

  /** Recording at 10 fps (interval 100 ms) on a 30 fps source: of the ticks
      0, 33, 66, 100, 133, 166, 200 only 100 and 200 are saved, because the
      gate starts at 0 and the first tick is 0 ms past it. */
  lemma ScenarioTenFps()
    ensures Interval(10) == 100
    ensures Admitted([0, 33, 66, 100, 133, 166, 200], 0, Interval(10)) == [100, 200]
  {
    var ticks := [0, 33, 66, 100, 133, 166, 200];
    assert ticks[1..] == [33, 66, 100, 133, 166, 200];
    assert ticks[1..][1..] == [66, 100, 133, 166, 200];
    assert ticks[1..][1..][1..] == [100, 133, 166, 200];
    assert ticks[1..][1..][1..][1..] == [133, 166, 200];
    assert ticks[1..][1..][1..][1..][1..] == [166, 200];
    assert ticks[1..][1..][1..][1..][1..][1..] == [200];
  }
}
