/** The infrared test recorder (irFramesTest.cpp): an ungated four-file
    snapshot, the emitter and alignment toggles, an always-gated movie
    recorder at 1280 x 720, and the per-frame grid of aligned distance
    samples that is written out newest first at exit. */
module IrFramesTest {
  import opened Files
  import opened RateGate
  import opened Controls
  import Pixels
  import DevColImageFrame
  import DevDepthImageFrame
  import DevIrImageFrame

  const WIDTH: nat := 1280
  const HEIGHT: nat := 720
  const FIRST_FRAME_NUM: int := 1000000
  /** Samples are taken only while fewer frames than this have been sampled. */
  const MAX_SAMPLED_FRAMES: int := 5000

  /** A distance reported by the depth frame; only carried, never computed. */
  type Distance

  /** One `(framedepthcount, distance)` entry of `pixel_distance`. */
  datatype Sample = Sample(frame: int, dist: Distance)

  /** The pixel columns and rows of the 10 x 10 sample grid. */
  const PIX_X_LIST: seq<int> := [603, 606, 609, 612, 615, 618, 621, 624, 627, 630]
  const PIX_Y_LIST: seq<int> := [363, 366, 369, 372, 375, 378, 381, 384, 387, 390]

  /** The frames of one `wait_for_frames` call: colour, depth and the two
      infrared imagers, all 1280 x 720. */
  datatype FrameSet = FrameSet(colour: seq<Byte>, depth: seq<Byte>, irLeft: seq<Byte>, irRight: seq<Byte>) {
    predicate Complete() {
      && 3 * (WIDTH * HEIGHT) <= |colour|
      && WIDTH * HEIGHT * 2 <= |depth|
      && WIDTH * HEIGHT <= |irLeft|
      && WIDTH * HEIGHT <= |irRight|
    }
  }

  /** The snapshot writers, in the order they are dispatched. */
  datatype Writer = ColourWriter | DepthWriter | IrLeftWriter | IrRightWriter

  datatype SnapshotOutcome = AllDispatched | RaisedAt(writer: Writer)

  function Dispatched(outcome: SnapshotOutcome): nat {
    match outcome
    case AllDispatched => 4
    case RaisedAt(ColourWriter) => 0
    case RaisedAt(DepthWriter) => 1
    case RaisedAt(IrLeftWriter) => 2
    case RaisedAt(IrRightWriter) => 3
  }

  /** The writers in dispatch order. */
  const WRITERS: seq<Writer> := [ColourWriter, DepthWriter, IrLeftWriter, IrRightWriter]

  /** The file each writer creates for snapshot number `n`. */
  function SnapshotPath(cpath: string, dpath: string, n: int, w: Writer): Path {
    match w
    case ColourWriter => Path(cpath, FileName("ColSnap_", n, ".jpg"))
    case DepthWriter => Path(dpath, FileName("DepthSnap_", n, ".dat"))
    case IrLeftWriter => Path(dpath, FileName("IRLeftSnap_", n, ".dat"))
    case IrRightWriter => Path(dpath, FileName("IRRightSnap_", n, ".dat"))
  }

  /** Different writers, or different snapshot numbers, never share a file. */
  lemma SnapshotPathsDistinct(cpath: string, dpath: string, n: int, v: Writer, m: int, w: Writer)
    requires n != m || v != w
    ensures SnapshotPath(cpath, dpath, n, v) != SnapshotPath(cpath, dpath, m, w)
  {
    var p, q := SnapshotPath(cpath, dpath, n, v), SnapshotPath(cpath, dpath, m, w);
    if v == w {
      match v
      case ColourWriter => FileNameInjective("ColSnap_", ".jpg", n, m);
      case DepthWriter => FileNameInjective("DepthSnap_", ".dat", n, m);
      case IrLeftWriter => FileNameInjective("IRLeftSnap_", ".dat", n, m);
      case IrRightWriter => FileNameInjective("IRRightSnap_", ".dat", n, m);
    } else if (v == IrLeftWriter && w == IrRightWriter) || (v == IrRightWriter && w == IrLeftWriter) {
      assert p.name[2] != q.name[2];
    } else {
      assert p.name[0] != q.name[0];
    }
  }

  /** The file one writer of snapshot number `n` creates: the colour view as
      JPEG, the other three as the raw bytes of their frame. */
  function WriterSave(cpath: string, dpath: string, n: int, fs: FrameSet, w: Writer): Save
    requires fs.Complete()
  {
    var file := match w
      case ColourWriter => Pixels.ColourJpeg(WIDTH, HEIGHT, fs.colour)
      case DepthWriter => RawFile(fs.depth[..WIDTH * HEIGHT * 2])
      case IrLeftWriter => RawFile(fs.irLeft[..WIDTH * HEIGHT])
      case IrRightWriter => RawFile(fs.irRight[..WIDTH * HEIGHT]);
    Save(SnapshotPath(cpath, dpath, n, w), file)
  }

  /** The writes of snapshot number `n`, cut short where the dispatch raised. */
  function SnapshotSaves(cpath: string, dpath: string, n: int, fs: FrameSet, outcome: SnapshotOutcome): seq<Save>
    requires fs.Complete()
  {
    var all := [WriterSave(cpath, dpath, n, fs, ColourWriter), WriterSave(cpath, dpath, n, fs, DepthWriter),
                WriterSave(cpath, dpath, n, fs, IrLeftWriter), WriterSave(cpath, dpath, n, fs, IrRightWriter)];
    all[..Dispatched(outcome)]
  }

  lemma SnapshotSavesPaths(cpath: string, dpath: string, n: int, fs: FrameSet, outcome: SnapshotOutcome)
    requires fs.Complete()
    ensures |SnapshotSaves(cpath, dpath, n, fs, outcome)| == Dispatched(outcome)
    ensures forall i :: 0 <= i < Dispatched(outcome) ==>
      SnapshotSaves(cpath, dpath, n, fs, outcome)[i].path == SnapshotPath(cpath, dpath, n, WRITERS[i])
  {
  }

  /** Snapshots with different indices never share a file; within one
      snapshot the four files are different. */
  lemma SnapshotNamesDistinct(cpath: string, dpath: string, n: int, m: int,
                              fs: FrameSet, gs: FrameSet, o: SnapshotOutcome, p: SnapshotOutcome)
    requires fs.Complete() && gs.Complete()
    ensures var a, b := SnapshotSaves(cpath, dpath, n, fs, o), SnapshotSaves(cpath, dpath, m, gs, p);
      && (forall i, j :: 0 <= i < j < |a| ==> a[i].path != a[j].path)
      && (n != m ==> forall i, j :: 0 <= i < |a| && 0 <= j < |b| ==> a[i].path != b[j].path)
  {
    var a, b := SnapshotSaves(cpath, dpath, n, fs, o), SnapshotSaves(cpath, dpath, m, gs, p);
    forall i, j | 0 <= i < |a| && 0 <= j < |b| && n != m
      ensures a[i].path != b[j].path
    {
      SavePathAt(cpath, dpath, n, fs, o, i);
      SavePathAt(cpath, dpath, m, gs, p, j);
      SnapshotPathsDistinct(cpath, dpath, n, WRITERS[i], m, WRITERS[j]);
    }
    forall i, j | 0 <= i < j < |a|
      ensures a[i].path != a[j].path
    {
      SavePathAt(cpath, dpath, n, fs, o, i);
      SavePathAt(cpath, dpath, n, fs, o, j);
      SnapshotPathsDistinct(cpath, dpath, n, WRITERS[i], n, WRITERS[j]);
    }
  }

  lemma SavePathAt(cpath: string, dpath: string, n: int, fs: FrameSet, o: SnapshotOutcome, i: nat)
    requires fs.Complete() && i < |SnapshotSaves(cpath, dpath, n, fs, o)|
    ensures i < 4 && SnapshotSaves(cpath, dpath, n, fs, o)[i].path == SnapshotPath(cpath, dpath, n, WRITERS[i])
  {
    SnapshotSavesPaths(cpath, dpath, n, fs, o);
  }

  // ---------------------------------------------------------------------
  // Key callback
  // ---------------------------------------------------------------------

  /** `g_movflag`, `g_alignflag`, `calib_num` and `emitter_toggle`. */
  datatype Controller = Controller(flag: bv8, align: bool, calibNum: int, emitterToggle: bool)

  /** The value key I commands for the emitter: off first, then on. */
  function EmitterValue(toggle: bool): int {
    if toggle then 0 else 1
  }

  function OnKey(c: Controller, key: Key, action: Action, outcome: SnapshotOutcome): Controller {
    if action != Press then c
    else match key
      case KeyA => if outcome == AllDispatched then c.(calibNum := c.calibNum + 1) else c
      case KeyI => c.(emitterToggle := !c.emitterToggle)
      case KeyM => c.(flag := StartAll(c.flag))
      case KeyE => c.(flag := STOPPED)
      case KeyT => c.(align := !c.align)
      case _ => c
  }

  /** Snapshots are taken on every press of A, recording or not. */
  function KeySaves(c: Controller, key: Key, action: Action, cpath: string, dpath: string,
                    fs: FrameSet, outcome: SnapshotOutcome): seq<Save>
    requires fs.Complete()
  {
    if key == KeyA && action == Press then SnapshotSaves(cpath, dpath, c.calibNum, fs, outcome) else []
  }

  /** `emitter_toggle` after `k` presses of I. */
  function ToggleAfter(start: bool, k: nat): bool {
    if k == 0 then start else !ToggleAfter(start, k - 1)
  }

  /** Starting from `emitter_toggle = true`, the k-th press of I (counting
      from 0) commands `k % 2`: 0, 1, 0, 1, ... */
  lemma {:induction false} EmitterAlternates(k: nat)
    ensures EmitterValue(ToggleAfter(true, k)) == k % 2
    ensures ToggleAfter(true, k) == (k % 2 == 0)
  {
    if k > 0 {
      EmitterAlternates(k - 1);
    }
  }

  /** A press of I flips the toggle and nothing else; T flips the alignment
      flag and nothing else; A is not refused while recording and moves the
      index by one exactly when every writer was dispatched. */
  lemma KeyRules(c: Controller, key: Key, action: Action, cpath: string, dpath: string,
                 fs: FrameSet, outcome: SnapshotOutcome)
    requires fs.Complete()
    ensures action == Press && key == KeyI ==>
      OnKey(c, key, action, outcome) == c.(emitterToggle := !c.emitterToggle)
    ensures action == Press && key == KeyT ==>
      OnKey(c, key, action, outcome) == c.(align := !c.align)
    ensures action == Press && key == KeyA ==>
      |KeySaves(c, key, action, cpath, dpath, fs, outcome)| == Dispatched(outcome) &&
      OnKey(c, key, action, outcome).calibNum == c.calibNum + (if outcome == AllDispatched then 1 else 0)
    ensures action == Press && key == KeyM ==> Recording(OnKey(c, key, action, outcome).flag)
    ensures action == Press && key == KeyE ==> OnKey(c, key, action, outcome).flag == 0
    ensures action != Press ==> OnKey(c, key, action, outcome) == c && KeySaves(c, key, action, cpath, dpath, fs, outcome) == []
  {
    if action == Press && key == KeyM {
      StartAllProperties(c.flag);
    }
  }

  // ---------------------------------------------------------------------
  // Distance samples
  // ---------------------------------------------------------------------

  /** The samples of grid column `px`, one per row. */
  function GridRow(count: int, distanceAt: (int, int) -> Distance, px: nat): (r: seq<Sample>)
    requires px < 10
    ensures |r| == 10
  {
    seq(10, py requires 0 <= py < 10 => Sample(count, distanceAt(PIX_X_LIST[px], PIX_Y_LIST[py])))
  }

  lemma GridRowPrefix(count: int, distanceAt: (int, int) -> Distance, px: nat, py: nat)
    requires px < 10 && py < 10
    ensures GridRow(count, distanceAt, px)[..py + 1] ==
      GridRow(count, distanceAt, px)[..py] + [Sample(count, distanceAt(PIX_X_LIST[px], PIX_Y_LIST[py]))]
  {
    var row := GridRow(count, distanceAt, px);
    assert row[..py + 1] == row[..py] + [row[py]];
  }

  /** The samples of the first `n` columns, column by column. */
  function GridRows(count: int, distanceAt: (int, int) -> Distance, n: nat): (g: seq<Sample>)
    requires n <= 10
    ensures |g| == 10 * n
  {
    if n == 0 then [] else GridRows(count, distanceAt, n - 1) + GridRow(count, distanceAt, n - 1)
  }

  /** The 100 samples of one aligned frame, x outer and y inner. */
  function GridSamples(count: int, distanceAt: (int, int) -> Distance): (g: seq<Sample>)
    ensures |g| == 100
  {
    GridRows(count, distanceAt, 10)
  }

  lemma {:induction false} GridRowsAt(count: int, distanceAt: (int, int) -> Distance, n: nat)
    requires n <= 10
    ensures forall k :: 0 <= k < 10 * n ==>
      GridRows(count, distanceAt, n)[k] == Sample(count, distanceAt(PIX_X_LIST[k / 10], PIX_Y_LIST[k % 10]))
  {
    if n > 0 {
      GridRowsAt(count, distanceAt, n - 1);
      var g := GridRows(count, distanceAt, n);
      forall k | 10 * (n - 1) <= k < 10 * n
        ensures g[k] == Sample(count, distanceAt(PIX_X_LIST[k / 10], PIX_Y_LIST[k % 10]))
      {
        var py := k - 10 * (n - 1);
        assert k / 10 == n - 1 && k % 10 == py;
        assert g[k] == GridRow(count, distanceAt, n - 1)[py];
      }
    }
  }

  /** The grid is x in {603, 606, ..., 630} and y in {363, 366, ..., 390};
      sample `k` is taken at column `k / 10` and row `k % 10`, and all 100
      are tagged with the frame count. */
  lemma GridShape(count: int, distanceAt: (int, int) -> Distance)
    ensures |PIX_X_LIST| == 10 && |PIX_Y_LIST| == 10
    ensures forall i :: 0 <= i < 10 ==> PIX_X_LIST[i] == 603 + 3 * i && PIX_Y_LIST[i] == 363 + 3 * i
    ensures forall k :: 0 <= k < 100 ==>
      GridSamples(count, distanceAt)[k] == Sample(count, distanceAt(PIX_X_LIST[k / 10], PIX_Y_LIST[k % 10]))
  {
    GridRowsAt(count, distanceAt, 10);
  }

  /** The samples a run has gathered: frames 1, 2, ... each contribute 100
      entries, in order. */
  predicate Tagged(samples: seq<Sample>, count: int) {
    && |samples| == 100 * (count - 1)
    && forall i :: 0 <= i < |samples| ==> samples[i].frame == 1 + i / 100
  }

  /** Appending the grid of frame `count` keeps the tagging. */
  lemma TaggedAppend(samples: seq<Sample>, count: int, distanceAt: (int, int) -> Distance)
    requires Tagged(samples, count)
    ensures Tagged(samples + GridSamples(count, distanceAt), count + 1)
  {
    var all := samples + GridSamples(count, distanceAt);
    GridShape(count, distanceAt);
    forall i | 0 <= i < |all|
      ensures all[i].frame == 1 + i / 100
    {
      if i >= |samples| {
        assert all[i] == GridSamples(count, distanceAt)[i - |samples|];
        assert i / 100 == count - 1 by {
          assert 100 * (count - 1) <= i < 100 * count;
        }
      }
    }
  }

  /** The entries in the order the exit dump writes them: last in, first out. */
  function Reverse(s: seq<Sample>): (r: seq<Sample>)
    ensures |r| == |s|
  {
    if s == [] then [] else [s[|s| - 1]] + Reverse(s[..|s| - 1])
  }

  /** The i-th line written is the i-th entry from the end, so every entry is
      written once and the order is exactly reversed. */
  lemma {:induction false} ReverseAt(s: seq<Sample>)
    ensures forall i :: 0 <= i < |s| ==> Reverse(s)[i] == s[|s| - 1 - i]
    ensures multiset(Reverse(s)) == multiset(s)
    decreases |s|
  {
    if s != [] {
      var init := s[..|s| - 1];
      ReverseAt(init);
      assert s == init + [s[|s| - 1]];
    }
  }

  /** For the samples of `count - 1` frames, the dump writes the newest frame's
      100 entries first and frame 1's last. */
  lemma DumpFrameOrder(samples: seq<Sample>, count: int)
    requires Tagged(samples, count)
    ensures forall i :: 0 <= i < |samples| ==> Reverse(samples)[i].frame == count - 1 - i / 100
  {
    ReverseAt(samples);
    forall i | 0 <= i < |samples|
      ensures Reverse(samples)[i].frame == count - 1 - i / 100
    {
      var j := |samples| - 1 - i;
      var q, r := i / 100, i % 100;
      assert i == 100 * q + r;
      assert j == 100 * (count - 2 - q) + (99 - r);
      assert j / 100 == count - 2 - q;
    }
  }

  // ---------------------------------------------------------------------
  // Main loop
  // ---------------------------------------------------------------------

  /** Fixed for a run: the gate interval and the output folders. */
  datatype Settings = Settings(interval: int, cpath: string, dpath: string)

  /** `c_incr`, `cnum`, `dnum`. */
  datatype LoopState = LoopState(cIncr: int, cnum: int, dnum: int)

  /** One tick: its stamp, its frames, and the distances of its aligned
      depth frame. */
  datatype Tick = Tick(stamp: int, frames: FrameSet, distanceAt: (int, int) -> Distance)

  /** Recording here is always gated; there is no full-rate path. */
  predicate Records(flag: bv8, st: Settings, cIncr: int, stamp: int) {
    Recording(flag) && Admits(stamp, cIncr, st.interval)
  }

  function Step(flag: bv8, st: Settings, s: LoopState, stamp: int): LoopState {
    if Records(flag, st, s.cIncr, stamp) then LoopState(stamp, s.cnum + 1, s.dnum + 1) else s
  }

  /** The colour movie file of a recorded tick, numbered `n`. */
  function ColourSave(st: Settings, n: int, t: Tick): Save
    requires t.frames.Complete()
  {
    Save(ColourMoviePath(st.cpath, n), Pixels.ColourJpeg(WIDTH, HEIGHT, t.frames.colour))
  }

  /** The depth movie file of a recorded tick, numbered `n`. */
  function DepthSave(st: Settings, n: int, t: Tick): Save
    requires t.frames.Complete()
  {
    Save(DepthMoviePath(st.dpath, n), RawFile(t.frames.depth[..WIDTH * HEIGHT * 2]))
  }

  function TickSaves(flag: bv8, st: Settings, s: LoopState, t: Tick): seq<Save>
    requires t.frames.Complete()
  {
    if Records(flag, st, s.cIncr, t.stamp) then [ColourSave(st, s.cnum, t), DepthSave(st, s.dnum, t)] else []
  }

  function RunState(flag: bv8, st: Settings, s: LoopState, stamps: seq<int>): LoopState
    decreases |stamps|
  {
    if stamps == [] then s else RunState(flag, st, Step(flag, st, s, stamps[0]), stamps[1..])
  }

  /** While recording, a run records exactly the ticks the gate admits. */
  lemma {:induction false} GatedRun(flag: bv8, st: Settings, s: LoopState, stamps: seq<int>)
    requires Recording(flag)
    ensures var k := |Admitted(stamps, s.cIncr, st.interval)|;
      RunState(flag, st, s, stamps) == LoopState(GateAfter(stamps, s.cIncr, st.interval), s.cnum + k, s.dnum + k)
    decreases |stamps|
  {
    if stamps != [] {
      GatedRun(flag, st, Step(flag, st, s, stamps[0]), stamps[1..]);
    }
  }

  // The run definitions from here on (`AllComplete`, `Stamps`, `RunSaves`,
  // `GatedTicks`, `RecordedSaves`, `GatedSaves`, ...) are repeated in each
  // program's module on purpose: each is stated over that program's own
  // `Tick`, `Settings` and loop step.
  predicate AllComplete(ticks: seq<Tick>) {
    forall i :: 0 <= i < |ticks| ==> ticks[i].frames.Complete()
  }

  function Stamps(ticks: seq<Tick>): seq<int> {
    seq(|ticks|, i requires 0 <= i < |ticks| => ticks[i].stamp)
  }

  /** The movie files written by a run of ticks with the flag held fixed, in
      order. */
  function RunSaves(flag: bv8, st: Settings, s: LoopState, ticks: seq<Tick>): seq<Save>
    requires AllComplete(ticks)
    decreases |ticks|
  {
    if ticks == [] then []
    else TickSaves(flag, st, s, ticks[0]) + RunSaves(flag, st, Step(flag, st, s, ticks[0].stamp), ticks[1..])
  }

  lemma CompleteTail(ticks: seq<Tick>)
    requires AllComplete(ticks) && ticks != []
    ensures ticks[0].frames.Complete() && AllComplete(ticks[1..])
  {
    forall i | 0 <= i < |ticks[1..]| ensures ticks[1..][i].frames.Complete() {
      assert ticks[1..][i] == ticks[i + 1];
    }
  }

  /** The ticks a run records are the admitted ones: their stamps are the
      admitted stamps, in order. */
  lemma {:induction false} GatedTicks(st: Settings, s: LoopState, ticks: seq<Tick>)
    requires AllComplete(ticks)
    ensures var r := AdmittedItems(ticks, Stamps(ticks), s.cIncr, st.interval);
      AllComplete(r) && Stamps(r) == Admitted(Stamps(ticks), s.cIncr, st.interval)
    decreases |ticks|
  {
    if ticks != [] {
      var stamps := Stamps(ticks);
      var next := if Admits(ticks[0].stamp, s.cIncr, st.interval) then ticks[0].stamp else s.cIncr;
      assert stamps[1..] == Stamps(ticks[1..]);
      CompleteTail(ticks);
      GatedTicks(st, s.(cIncr := next), ticks[1..]);
      var r, r' := AdmittedItems(ticks, stamps, s.cIncr, st.interval), AdmittedItems(ticks[1..], stamps[1..], next, st.interval);
      if Admits(ticks[0].stamp, s.cIncr, st.interval) {
        assert r == [ticks[0]] + r';
        assert Stamps(r) == [ticks[0].stamp] + Stamps(r');
      }
    }
  }

  /** The movie files of the recorded ticks `r`, numbered from `cn` and
      `dn`: each tick's colour frame, then its depth frame. */
  function RecordedSaves(st: Settings, cn: int, dn: int, r: seq<Tick>): seq<Save>
    requires AllComplete(r)
    decreases |r|
  {
    if r == [] then []
    else [ColourSave(st, cn, r[0]), DepthSave(st, dn, r[0])] + RecordedSaves(st, cn + 1, dn + 1, r[1..])
  }

  /** The k-th recorded tick is written as `col_frame_<cn + k>.jpg` then
      `depth_frame_<dn + k>.dat`. */
  lemma {:induction false} RecordedSlots(st: Settings, cn: int, dn: int, r: seq<Tick>)
    requires AllComplete(r)
    ensures Slots(RecordedSaves(st, cn, dn, r), st.cpath, st.dpath, cn, dn, |r|)
    decreases |r|
  {
    if r != [] {
      CompleteTail(r);
      OneSlot(ColourSave(st, cn, r[0]), DepthSave(st, dn, r[0]), st.cpath, st.dpath, cn, dn);
      RecordedSlots(st, cn + 1, dn + 1, r[1..]);
      SlotsPrepend([ColourSave(st, cn, r[0]), DepthSave(st, dn, r[0])], RecordedSaves(st, cn + 1, dn + 1, r[1..]),
                   st.cpath, st.dpath, cn, dn, 1, |r| - 1);
    }
  }

  /** While recording, the files written are those of the ticks the gate
      admits, in order, the k-th of them as colour frame `cnum + k` then
      depth frame `dnum + k`. */
  lemma {:induction false} GatedSaves(flag: bv8, st: Settings, s: LoopState, ticks: seq<Tick>)
    requires Recording(flag) && AllComplete(ticks)
    ensures var r := AdmittedItems(ticks, Stamps(ticks), s.cIncr, st.interval);
      && AllComplete(r) && Stamps(r) == Admitted(Stamps(ticks), s.cIncr, st.interval)
      && RunSaves(flag, st, s, ticks) == RecordedSaves(st, s.cnum, s.dnum, r)
      && Slots(RunSaves(flag, st, s, ticks), st.cpath, st.dpath, s.cnum, s.dnum, |r|)
    decreases |ticks|
  {
    GatedTicks(st, s, ticks);
    if ticks != [] {
      var stamps := Stamps(ticks);
      var s' := Step(flag, st, s, ticks[0].stamp);
      assert stamps[1..] == Stamps(ticks[1..]);
      CompleteTail(ticks);
      GatedSaves(flag, st, s', ticks[1..]);
      var r, r' := AdmittedItems(ticks, stamps, s.cIncr, st.interval), AdmittedItems(ticks[1..], Stamps(ticks[1..]), s'.cIncr, st.interval);
      if Admits(ticks[0].stamp, s.cIncr, st.interval) {
        assert r[1..] == r';
      } else {
        assert s' == s;
      }
    }
    RecordedSlots(st, s.cnum, s.dnum, AdmittedItems(ticks, Stamps(ticks), s.cIncr, st.interval));
  }

  // ---------------------------------------------------------------------
  // The recorder
  // ---------------------------------------------------------------------

  class Recorder {
    const disk: Disk
    const settings: Settings
    var movFlag: bv8
    var alignFlag: bool
    var calibNum: int
    var emitterToggle: bool
    var cIncr: int
    var cnum: int
    var dnum: int
    var samples: seq<Sample>
    var frameDepthCount: int

    function Ctl(): Controller
      reads this
    {
      Controller(movFlag, alignFlag, calibNum, emitterToggle)
    }

    function Loop(): LoopState
      reads this
    {
      LoopState(cIncr, cnum, dnum)
    }

    /** The sample store holds 100 entries for each frame sampled so far. */
    predicate Valid()
      reads this
    {
      1 <= frameDepthCount <= MAX_SAMPLED_FRAMES && Tagged(samples, frameDepthCount)
    }

    constructor (d: Disk, fps: int, cpath: string, dpath: string)
      requires fps >= 1
      ensures disk == d && settings == Settings(Interval(fps), cpath, dpath)
      ensures Ctl() == Controller(0, false, 0, true)
      ensures Loop() == LoopState(0, FIRST_FRAME_NUM, FIRST_FRAME_NUM)
      ensures samples == [] && frameDepthCount == 1
      ensures Valid()
    {
      disk := d;
      settings := Settings(Interval(fps), cpath, dpath);
      movFlag := 0;
      alignFlag := false;
      calibNum := 0;
      emitterToggle := true;
      cIncr := 0;
      cnum := FIRST_FRAME_NUM;
      dnum := FIRST_FRAME_NUM;
      samples := [];
      frameDepthCount := 1;
    }

    /** One writer thread of the A key: a fresh frame object writing its
        snapshot file. */
    method Dispatch(fs: FrameSet, n: int, w: Writer)
      requires fs.Complete()
      modifies disk
      ensures var sv := WriterSave(settings.cpath, settings.dpath, n, fs, w);
        disk.files == old(disk.files)[sv.path := sv.file]
    {
      match w
      case ColourWriter =>
        var cfilesave := new DevColImageFrame.ColImageFrame(WIDTH, HEIGHT);
        cfilesave.SaveSnapshot(disk, fs.colour, settings.cpath, FileName("ColSnap_", n, ".jpg"));
      case DepthWriter =>
        var dfilesave := new DevDepthImageFrame.DepthImageFrame(WIDTH, HEIGHT);
        var warned := dfilesave.SaveSnapshot(disk, fs.depth, settings.dpath, FileName("DepthSnap_", n, ".dat"));
      case IrLeftWriter =>
        var irfilesave1 := new DevIrImageFrame.IrImageFrame(WIDTH, HEIGHT);
        var warned := irfilesave1.SaveSnapshot(disk, fs.irLeft, settings.dpath, FileName("IRLeftSnap_", n, ".dat"));
      case IrRightWriter =>
        var irfilesave2 := new DevIrImageFrame.IrImageFrame(WIDTH, HEIGHT);
        var warned := irfilesave2.SaveSnapshot(disk, fs.irRight, settings.dpath, FileName("IRRightSnap_", n, ".dat"));
    }

    /** The A key: one writer per stream, dispatched in order, all numbered
        by `calib_num`; the index moves only when every writer started. */
    method TakeSnapshot(fs: FrameSet, outcome: SnapshotOutcome)
      requires fs.Complete()
      modifies this`calibNum, disk
      ensures calibNum == old(calibNum) + if outcome == AllDispatched then 1 else 0
      ensures disk.files == Apply(old(disk.files), SnapshotSaves(settings.cpath, settings.dpath, old(calibNum), fs, outcome))
    {
      var n := calibNum;
      ghost var files0 := disk.files;
      ghost var all := SnapshotSaves(settings.cpath, settings.dpath, n, fs, AllDispatched);
      assert all[..0] == [];
      if Dispatched(outcome) >= 1 {
        Dispatch(fs, n, ColourWriter);
        ApplyPrefix(files0, all, 0);
      }
      if Dispatched(outcome) >= 2 {
        Dispatch(fs, n, DepthWriter);
        ApplyPrefix(files0, all, 1);
      }
      if Dispatched(outcome) >= 3 {
        Dispatch(fs, n, IrLeftWriter);
        ApplyPrefix(files0, all, 2);
      }
      if Dispatched(outcome) >= 4 {
        Dispatch(fs, n, IrRightWriter);
        ApplyPrefix(files0, all, 3);
        assert all[..4] == all;
      }
      assert all[..Dispatched(outcome)] == SnapshotSaves(settings.cpath, settings.dpath, n, fs, outcome);
      if outcome == AllDispatched {
        calibNum := calibNum + 1;
      }
    }

    /** `key_callback`. For I, `emitterSupported` says whether the depth
        sensor supports the emitter option; `emitted` is the value set, if
        any. */
    method KeyCallback(key: Key, action: Action, fs: FrameSet, outcome: SnapshotOutcome, emitterSupported: bool)
      returns (emitted: Option<int>)
      requires fs.Complete()
      modifies this`movFlag, this`alignFlag, this`calibNum, this`emitterToggle, disk
      ensures Ctl() == OnKey(old(Ctl()), key, action, outcome)
      ensures emitted == if key == KeyI && action == Press && emitterSupported
                         then Some(EmitterValue(old(emitterToggle))) else None
      ensures disk.files == Apply(old(disk.files), KeySaves(old(Ctl()), key, action, settings.cpath, settings.dpath, fs, outcome))
    {
      emitted := None;
      if action != Press {
        return;
      }
      match key
      case KeyA =>
        TakeSnapshot(fs, outcome);
      case KeyI =>
        var emitterValue := EmitterValue(emitterToggle);
        emitterToggle := !emitterToggle;
        if emitterSupported {
          emitted := Some(emitterValue);
        }
      case KeyM =>
        movFlag := StartAll(movFlag);
      case KeyE =>
        movFlag := STOPPED;
      case KeyT =>
        alignFlag := !alignFlag;
      case _ =>
    }

    /** One iteration of the main loop: sample the aligned depth frame, then
        record if the gate admits the tick. */
    method Tick(t: Tick)
      requires Valid() && t.frames.Complete()
      modifies this`samples, this`frameDepthCount, this`cIncr, this`cnum, this`dnum, disk
      ensures Valid()
      ensures if alignFlag && old(frameDepthCount) < MAX_SAMPLED_FRAMES
              then samples == old(samples) + GridSamples(old(frameDepthCount), t.distanceAt) &&
                   frameDepthCount == old(frameDepthCount) + 1
              else samples == old(samples) && frameDepthCount == old(frameDepthCount)
      ensures Loop() == Step(movFlag, settings, old(Loop()), t.stamp)
      ensures disk.files == Apply(old(disk.files), TickSaves(movFlag, settings, old(Loop()), t))
    {
      if alignFlag && frameDepthCount < MAX_SAMPLED_FRAMES {
        TaggedAppend(samples, frameDepthCount, t.distanceAt);
        SampleGrid(frameDepthCount, t.distanceAt);
        frameDepthCount := frameDepthCount + 1;
      }
      RecordFrame(t);
    }

    /** The recording half of a loop iteration: while recording, write the
        colour and depth movie files of an admitted tick. */
    method RecordFrame(t: Tick)
      requires t.frames.Complete()
      modifies this`cIncr, this`cnum, this`dnum, disk
      ensures Loop() == Step(movFlag, settings, old(Loop()), t.stamp)
      ensures disk.files == Apply(old(disk.files), TickSaves(movFlag, settings, old(Loop()), t))
    {
      if Recording(movFlag) {
        var cfilesave := new DevColImageFrame.ColImageFrame(WIDTH, HEIGHT);
        var dfilesave := new DevDepthImageFrame.DepthImageFrame(WIDTH, HEIGHT);
        ghost var files0 := disk.files;
        ghost var saves := TickSaves(movFlag, settings, Loop(), t);
        if t.stamp - cIncr >= settings.interval {
          cfilesave.SaveMovie(disk, t.frames.colour, settings.cpath, cnum);
          dfilesave.SaveMovie(disk, t.frames.depth, settings.dpath, dnum);
          ApplyTwo(files0, saves[0], saves[1]);
          dnum := dnum + 1;
          cnum := cnum + 1;
          cIncr := t.stamp;
        }
      }
    }

    /** The nested sampling loops: x outer, y inner, one entry per grid
        point, tagged with `count`. */
    method SampleGrid(count: int, distanceAt: (int, int) -> Distance)
      modifies this`samples
      ensures samples == old(samples) + GridSamples(count, distanceAt)
    {
      ghost var s0 := samples;
      for pxcount := 0 to 10
        invariant samples == s0 + GridRows(count, distanceAt, pxcount)
      {
        ghost var row := GridRow(count, distanceAt, pxcount);
        ghost var before := samples;
        for pycount := 0 to 10
          invariant samples == before + row[..pycount]
        {
          var distprojStore := distanceAt(PIX_X_LIST[pxcount], PIX_Y_LIST[pycount]);
          GridRowPrefix(count, distanceAt, pxcount, pycount);
          samples := samples + [Sample(count, distprojStore)];
        }
        assert row[..10] == row;
        assert GridRows(count, distanceAt, pxcount + 1) == GridRows(count, distanceAt, pxcount) + row;
      }
    }

    /** The exit dump: only if a frame was sampled, pop the entries from the
        back until none are left, writing each as a line. */
    method DumpDistances() returns (lines: seq<Sample>)
      modifies this`samples
      ensures old(frameDepthCount) > 1 ==> lines == Reverse(old(samples)) && samples == []
      ensures old(frameDepthCount) <= 1 ==> lines == [] && samples == old(samples)
    {
      lines := [];
      if frameDepthCount > 1 {
        ghost var s0 := samples;
        while samples != []
          invariant lines + Reverse(samples) == Reverse(s0)
          decreases |samples|
        {
          var checkTup := samples[|samples| - 1];
          assert Reverse(samples) == [checkTup] + Reverse(samples[..|samples| - 1]);
          samples := samples[..|samples| - 1];
          lines := lines + [checkTup];
        }
      }
    }
  }
}
