/** The librealsense2 recorder (TermiteScan-dev/TermiteScan.cpp): a key
    callback whose three snapshot files share one calibration index, and the
    per-tick decision of the main loop to save a colour and a depth movie
    frame. */
module TermiteScanDev {
  import opened Files
  import opened RateGate
  import opened Controls
  import Pixels
  import DevColImageFrame
  import DevDepthImageFrame
  import DevIrImageFrame

  const COLWIDTH: nat := 1920
  const COLHEIGHT: nat := 1080
  const DEPTHWIDTH: nat := 640
  const DEPTHHEIGHT: nat := 480
  /** First movie frame number of both streams. */
  const FIRST_FRAME_NUM: int := 1000000

  /** The colour, depth and infrared frames of one `wait_for_frames` call. */
  datatype FrameSet = FrameSet(colour: seq<Byte>, depth: seq<Byte>, ir: seq<Byte>) {
    /** Every frame holds at least the bytes its writer reads. */
    predicate Complete() {
      && 3 * (COLWIDTH * COLHEIGHT) <= |colour|
      && DEPTHWIDTH * DEPTHHEIGHT * 2 <= |depth|
      && DEPTHWIDTH * DEPTHHEIGHT <= |ir|
    }
  }

  /** The snapshot writers, in the order they are dispatched. */
  datatype Writer = ColourWriter | DepthWriter | IrWriter

  /** How the snapshot dispatch ended: every writer was started, or an
      `rs2::error` was raised while starting `writer`. */
  datatype SnapshotOutcome = AllDispatched | RaisedAt(writer: Writer)

  /** How many writers ran before the dispatch ended. */
  function Dispatched(outcome: SnapshotOutcome): nat {
    match outcome
    case AllDispatched => 3
    case RaisedAt(ColourWriter) => 0
    case RaisedAt(DepthWriter) => 1
    case RaisedAt(IrWriter) => 2
  }

  /** The writes of snapshot number `n`: `ColSnap_n.jpg`, `DepthSnap_n.dat`
      and `IRSnap_n.dat`, cut short where the dispatch raised. */
  function SnapshotSaves(cpath: string, dpath: string, n: int, fs: FrameSet, outcome: SnapshotOutcome): seq<Save>
    requires fs.Complete()
  {
    var all := [Save(Path(cpath, FileName("ColSnap_", n, ".jpg")), Pixels.ColourJpeg(COLWIDTH, COLHEIGHT, fs.colour)),
                Save(Path(dpath, FileName("DepthSnap_", n, ".dat")), RawFile(fs.depth[..DEPTHWIDTH * DEPTHHEIGHT * 2])),
                Save(Path(dpath, FileName("IRSnap_", n, ".dat")), RawFile(fs.ir[..DEPTHWIDTH * DEPTHHEIGHT]))];
    all[..Dispatched(outcome)]
  }

  // ---------------------------------------------------------------------
  // Key callback
  // ---------------------------------------------------------------------

  /** The state the key callback changes: `g_movflag` and `calib_num`. */
  datatype Controller = Controller(flag: bv8, calibNum: int)

  predicate TakesSnapshot(c: Controller, key: Key, action: Action) {
    key == KeyA && action == Press && !Recording(c.flag)
  }

  /** The default branch: any key but A, M and E prints the help line, on a
      press while not recording. */
  predicate ShowsHelp(c: Controller, key: Key, action: Action) {
    !(key.KeyA? || key.KeyM? || key.KeyE?) && action == Press && !Recording(c.flag)
  }

  function OnKey(c: Controller, key: Key, action: Action, outcome: SnapshotOutcome): Controller {
    if action != Press then c
    else match key
      case KeyA => if !Recording(c.flag) && outcome == AllDispatched then c.(calibNum := c.calibNum + 1) else c
      case KeyM => c.(flag := StartAll(c.flag))
      case KeyE => c.(flag := STOPPED)
      case _ => c
  }

  function KeySaves(c: Controller, key: Key, action: Action, cpath: string, dpath: string,
                    fs: FrameSet, outcome: SnapshotOutcome): seq<Save>
    requires fs.Complete()
  {
    if TakesSnapshot(c, key, action) then SnapshotSaves(cpath, dpath, c.calibNum, fs, outcome) else []
  }

  /** Only M and E change the flag: M sets bit 0x01 and keeps the others, E
      clears it. The index moves only for a snapshot that dispatched every
      writer, by exactly one; nothing is written while recording. */
  lemma KeyRules(c: Controller, key: Key, action: Action, cpath: string, dpath: string,
                 fs: FrameSet, outcome: SnapshotOutcome)
    requires fs.Complete()
    ensures var c' := OnKey(c, key, action, outcome);
      && (c'.flag != c.flag ==> action == Press && (key == KeyM || key == KeyE))
      && (action == Press && key == KeyM ==> Recording(c'.flag) && c'.flag & !ALL_MOV == c.flag & !ALL_MOV)
      && (action == Press && key == KeyE ==> !Recording(c'.flag) && c'.flag == 0)
      && c'.calibNum == c.calibNum + (if TakesSnapshot(c, key, action) && outcome == AllDispatched then 1 else 0)
    ensures Recording(c.flag) ==> KeySaves(c, key, action, cpath, dpath, fs, outcome) == []
    ensures |KeySaves(c, key, action, cpath, dpath, fs, outcome)| ==
      if TakesSnapshot(c, key, action) then Dispatched(outcome) else 0
    ensures ShowsHelp(c, key, action) ==>
      OnKey(c, key, action, outcome) == c && KeySaves(c, key, action, cpath, dpath, fs, outcome) == []
  {
    if action == Press && key == KeyM {
      StartAllProperties(c.flag);
    }
  }

  /** Snapshots with different indices never share a file, and within one
      snapshot the three files are different. A snapshot that raised leaves
      the index unchanged, so the next one reuses (overwrites) its names. */
  lemma SnapshotNamesDistinct(cpath: string, dpath: string, n: int, m: int,
                              fs: FrameSet, gs: FrameSet, o: SnapshotOutcome, p: SnapshotOutcome)
    requires fs.Complete() && gs.Complete()
    ensures var a, b := SnapshotSaves(cpath, dpath, n, fs, o), SnapshotSaves(cpath, dpath, m, gs, p);
      && (forall i, j :: 0 <= i < j < |a| ==> a[i].path != a[j].path)
      && (n != m ==> forall i, j :: 0 <= i < |a| && 0 <= j < |b| ==> a[i].path != b[j].path)
  {
    var a, b := SnapshotSaves(cpath, dpath, n, fs, o), SnapshotSaves(cpath, dpath, m, gs, p);
    forall i, j | 0 <= i < |a| && 0 <= j < |b| && n != m
      ensures a[i].path != b[j].path
    {
      SnapshotPairDistinct(cpath, dpath, n, m, fs, gs, o, p, i, j);
    }
    forall i, j | 0 <= i < j < |a|
      ensures a[i].path != a[j].path
    {
      SnapshotPairDistinct(cpath, dpath, n, n, fs, fs, o, o, i, j);
    }
  }

  lemma SnapshotPairDistinct(cpath: string, dpath: string, n: int, m: int,
                             fs: FrameSet, gs: FrameSet, o: SnapshotOutcome, p: SnapshotOutcome, i: nat, j: nat)
    requires fs.Complete() && gs.Complete()
    requires i < |SnapshotSaves(cpath, dpath, n, fs, o)| && j < |SnapshotSaves(cpath, dpath, m, gs, p)|
    requires n != m || i != j
    ensures SnapshotSaves(cpath, dpath, n, fs, o)[i].path != SnapshotSaves(cpath, dpath, m, gs, p)[j].path
  {
    var a, b := SnapshotSaves(cpath, dpath, n, fs, o), SnapshotSaves(cpath, dpath, m, gs, p);
    if i == j {
      if i == 0 { FileNameInjective("ColSnap_", ".jpg", n, m); }
      else if i == 1 { FileNameInjective("DepthSnap_", ".dat", n, m); }
      else { FileNameInjective("IRSnap_", ".dat", n, m); }
    } else {
      assert a[i].path.name[0] != b[j].path.name[0];
    }
  }

  // ---------------------------------------------------------------------
  // Main loop
  // ---------------------------------------------------------------------

  /** Fixed for a run: requested framerate, gate interval, output folders. */
  datatype Settings = Settings(fps: int, interval: int, cpath: string, dpath: string)

  /** `colframerate` before the framerate prompt. */
  const DEFAULT_FPS: int := 30

  /** The settings `main` runs with: `c_interval` is computed from the
      default `colframerate`, before the prompt reads the requested rate and
      never again, so the gate interval is 33 ms whatever rate was asked
      for. Only the `colframerate < 28` test sees the requested rate. */
  function StartSettings(fps: int, cpath: string, dpath: string): (st: Settings)
    ensures st.fps == fps && st.cpath == cpath && st.dpath == dpath
    ensures st.interval == 33 && FRAMERATE * st.interval <= 1000
  {
    Settings(fps, Interval(DEFAULT_FPS), cpath, dpath)
  }

  /** The settings evidently intended: the interval of the requested rate. */
  function IntendedSettings(fps: int, cpath: string, dpath: string): (st: Settings)
    requires fps >= 1
    ensures st.fps == fps && st.cpath == cpath && st.dpath == dpath
    ensures fps * st.interval <= 1000 < fps * (st.interval + 1)
  {
    Settings(fps, Interval(fps), cpath, dpath)
  }

  /** As written, a 10 fps request gates at 33 ms: of the ticks 0, 33, 66,
      100 the ticks 33, 66 and 100 are recorded, where a 100 ms interval
      records only 100. */
  lemma IntervalIgnoresRate()
    ensures StartSettings(10, "", "").interval == 33
    ensures Admitted([0, 33, 66, 100], 0, StartSettings(10, "", "").interval) == [33, 66, 100]
    ensures Admitted([0, 33, 66, 100], 0, IntendedSettings(10, "", "").interval) == [100]
  {
    var ticks := [0, 33, 66, 100];
    assert ticks[1..] == [33, 66, 100];
    assert ticks[1..][1..] == [66, 100];
    assert ticks[1..][1..][1..] == [100];
  }

  /** With the intended settings, recorded ticks are at least `1000 / fps`
      milliseconds (rounded down) apart: each gap, plus the millisecond lost
      to rounding, exceeds the frame period of the requested rate. */
  lemma IntendedSpacing(fps: int, cpath: string, dpath: string, stamps: seq<int>)
    requires fps >= 1
    ensures var iv := IntendedSettings(fps, cpath, dpath).interval;
      var a := Admitted(stamps, 0, iv);
      && (|a| > 0 ==> a[0] >= iv)
      && forall i :: 0 <= i < |a| - 1 ==> a[i + 1] - a[i] >= iv && fps * (a[i + 1] - a[i] + 1) > 1000
  {
    var iv := IntendedSettings(fps, cpath, dpath).interval;
    var a := Admitted(stamps, 0, iv);
    AdmittedSpacing(stamps, 0, iv);
    forall i | 0 <= i < |a| - 1
      ensures fps * (a[i + 1] - a[i] + 1) > 1000
    {
      GapExceedsPeriod(fps, iv, a[i + 1] - a[i]);
    }
  }

  lemma GapExceedsPeriod(fps: int, iv: int, gap: int)
    requires fps >= 1 && 1000 < fps * (iv + 1) && gap >= iv
    ensures fps * (gap + 1) > 1000
  {
    assert fps * (gap + 1) == fps * (iv + 1) + fps * (gap - iv);
    assert fps * (gap - iv) >= 0;
  }

  /** The loop variables `c_incr`, `cnum`, `dnum`. */
  datatype LoopState = LoopState(cIncr: int, cnum: int, dnum: int)

  /** One loop iteration's input: the stamp and the frames it waited for. */
  datatype Tick = Tick(stamp: int, frames: FrameSet)

  /** A tick is recorded while bit 0x01 is set: every tick at or above the
      framerate limit, otherwise only the ticks the gate admits. */
  predicate Records(flag: bv8, st: Settings, cIncr: int, stamp: int) {
    Recording(flag) && (st.fps < FRAMERATE_LIM ==> Admits(stamp, cIncr, st.interval))
  }

  function Step(flag: bv8, st: Settings, s: LoopState, stamp: int): LoopState {
    if !Records(flag, st, s.cIncr, stamp) then s
    else LoopState(if st.fps < FRAMERATE_LIM then stamp else s.cIncr, s.cnum + 1, s.dnum + 1)
  }

  /** The colour movie file of a recorded tick, numbered `n`. */
  function ColourSave(st: Settings, n: int, t: Tick): Save
    requires t.frames.Complete()
  {
    Save(ColourMoviePath(st.cpath, n), Pixels.ColourJpeg(COLWIDTH, COLHEIGHT, t.frames.colour))
  }

  /** The depth movie file of a recorded tick, numbered `n`. */
  function DepthSave(st: Settings, n: int, t: Tick): Save
    requires t.frames.Complete()
  {
    Save(DepthMoviePath(st.dpath, n), RawFile(t.frames.depth[..DEPTHWIDTH * DEPTHHEIGHT * 2]))
  }

  function TickSaves(flag: bv8, st: Settings, s: LoopState, t: Tick): seq<Save>
    requires t.frames.Complete()
  {
    if Records(flag, st, s.cIncr, t.stamp) then [ColourSave(st, s.cnum, t), DepthSave(st, s.dnum, t)] else []
  }

  // The run definitions from here on (`AllComplete`, `Stamps`, `RunSaves`,
  // `GatedTicks`, `RecordedSaves`, `GatedSaves`, ...) are repeated in each
  // program's module on purpose: each is stated over that program's own
  // `Tick`, `Settings` and loop step.
  predicate AllComplete(ticks: seq<Tick>) {
    forall i :: 0 <= i < |ticks| ==> ticks[i].frames.Complete()
  }

  function Stamps(ticks: seq<Tick>): seq<int> {
    seq(|ticks|, i requires 0 <= i < |ticks| => ticks[i].stamp)
  }

  /** The loop variables after a run of ticks with the flag held fixed. */
  function RunState(flag: bv8, st: Settings, s: LoopState, stamps: seq<int>): LoopState
    decreases |stamps|
  {
    if stamps == [] then s else RunState(flag, st, Step(flag, st, s, stamps[0]), stamps[1..])
  }

  /** The movie files written by that run, in order. */
  function RunSaves(flag: bv8, st: Settings, s: LoopState, ticks: seq<Tick>): seq<Save>
    requires AllComplete(ticks)
    decreases |ticks|
  {
    if ticks == [] then []
    else TickSaves(flag, st, s, ticks[0]) + RunSaves(flag, st, Step(flag, st, s, ticks[0].stamp), ticks[1..])
  }

  /** Below the framerate limit the run records exactly the ticks the gate
      admits: `c_incr` ends on the last of them and both frame numbers
      advance by their count. */
  lemma {:induction false} GatedRun(flag: bv8, st: Settings, s: LoopState, stamps: seq<int>)
    requires Recording(flag) && st.fps < FRAMERATE_LIM
    ensures var k := |Admitted(stamps, s.cIncr, st.interval)|;
      RunState(flag, st, s, stamps) == LoopState(GateAfter(stamps, s.cIncr, st.interval), s.cnum + k, s.dnum + k)
    decreases |stamps|
  {
    if stamps != [] {
      GatedRun(flag, st, Step(flag, st, s, stamps[0]), stamps[1..]);
    }
  }

  /** The ticks a gated run records are the admitted ones: their stamps are
      the admitted stamps, in order. */
  lemma {:induction false} GatedTicks(st: Settings, s: LoopState, ticks: seq<Tick>)
    requires AllComplete(ticks)
    ensures var r := AdmittedItems(ticks, Stamps(ticks), s.cIncr, st.interval);
      AllComplete(r) && Stamps(r) == Admitted(Stamps(ticks), s.cIncr, st.interval)
    decreases |ticks|
  {
    if ticks != [] {
      var stamps := Stamps(ticks);
      var next := if Admits(ticks[0].stamp, s.cIncr, st.interval) then ticks[0].stamp else s.cIncr;
      assert stamps[1..] == Stamps(ticks[1..]);
      CompleteTail(ticks);
      GatedTicks(st, s.(cIncr := next), ticks[1..]);
      var r, r' := AdmittedItems(ticks, stamps, s.cIncr, st.interval), AdmittedItems(ticks[1..], stamps[1..], next, st.interval);
      if Admits(ticks[0].stamp, s.cIncr, st.interval) {
        assert r == [ticks[0]] + r';
        assert Stamps(r) == [ticks[0].stamp] + Stamps(r');
      }
    }
  }

  lemma CompleteTail(ticks: seq<Tick>)
    requires AllComplete(ticks) && ticks != []
    ensures ticks[0].frames.Complete() && AllComplete(ticks[1..])
  {
    forall i | 0 <= i < |ticks[1..]| ensures ticks[1..][i].frames.Complete() {
      assert ticks[1..][i] == ticks[i + 1];
    }
  }

  /** The movie files of the recorded ticks `r`, numbered from `cn` and
      `dn`: each tick's colour frame, then its depth frame. */
  function RecordedSaves(st: Settings, cn: int, dn: int, r: seq<Tick>): seq<Save>
    requires AllComplete(r)
    decreases |r|
  {
    if r == [] then []
    else [ColourSave(st, cn, r[0]), DepthSave(st, dn, r[0])] + RecordedSaves(st, cn + 1, dn + 1, r[1..])
  }

  /** The k-th recorded tick is written as `col_frame_<cn + k>.jpg` then
      `depth_frame_<dn + k>.dat`. */
  lemma {:induction false} RecordedSlots(st: Settings, cn: int, dn: int, r: seq<Tick>)
    requires AllComplete(r)
    ensures Slots(RecordedSaves(st, cn, dn, r), st.cpath, st.dpath, cn, dn, |r|)
    decreases |r|
  {
    if r != [] {
      CompleteTail(r);
      OneSlot(ColourSave(st, cn, r[0]), DepthSave(st, dn, r[0]), st.cpath, st.dpath, cn, dn);
      RecordedSlots(st, cn + 1, dn + 1, r[1..]);
      SlotsPrepend([ColourSave(st, cn, r[0]), DepthSave(st, dn, r[0])], RecordedSaves(st, cn + 1, dn + 1, r[1..]),
                   st.cpath, st.dpath, cn, dn, 1, |r| - 1);
    }
  }

  /** Below the framerate limit the files written are those of the ticks the
      gate admits, in order, the k-th of them as colour frame `cnum + k` then
      depth frame `dnum + k`. */
  lemma {:induction false} GatedSaves(flag: bv8, st: Settings, s: LoopState, ticks: seq<Tick>)
    requires Recording(flag) && st.fps < FRAMERATE_LIM && AllComplete(ticks)
    ensures var r := AdmittedItems(ticks, Stamps(ticks), s.cIncr, st.interval);
      && AllComplete(r) && Stamps(r) == Admitted(Stamps(ticks), s.cIncr, st.interval)
      && RunSaves(flag, st, s, ticks) == RecordedSaves(st, s.cnum, s.dnum, r)
      && Slots(RunSaves(flag, st, s, ticks), st.cpath, st.dpath, s.cnum, s.dnum, |r|)
    decreases |ticks|
  {
    GatedTicks(st, s, ticks);
    if ticks != [] {
      var stamps := Stamps(ticks);
      var s' := Step(flag, st, s, ticks[0].stamp);
      assert stamps[1..] == Stamps(ticks[1..]);
      CompleteTail(ticks);
      GatedSaves(flag, st, s', ticks[1..]);
      var r, r' := AdmittedItems(ticks, stamps, s.cIncr, st.interval), AdmittedItems(ticks[1..], Stamps(ticks[1..]), s'.cIncr, st.interval);
      if Admits(ticks[0].stamp, s.cIncr, st.interval) {
        assert r[1..] == r';
      } else {
        assert s' == s;
      }
    }
    RecordedSlots(st, s.cnum, s.dnum, AdmittedItems(ticks, Stamps(ticks), s.cIncr, st.interval));
  }

  /** At or above the limit every tick is recorded and `c_incr` is left
      alone. */
  lemma {:induction false} FullRateRun(flag: bv8, st: Settings, s: LoopState, stamps: seq<int>)
    requires Recording(flag) && st.fps >= FRAMERATE_LIM
    ensures RunState(flag, st, s, stamps) == LoopState(s.cIncr, s.cnum + |stamps|, s.dnum + |stamps|)
    decreases |stamps|
  {
    if stamps != [] {
      FullRateRun(flag, st, Step(flag, st, s, stamps[0]), stamps[1..]);
    }
  }

  /** With bit 0x01 clear the loop only displays: nothing changes and
      nothing is written. */
  lemma {:induction false} IdleRun(flag: bv8, st: Settings, s: LoopState, ticks: seq<Tick>)
    requires !Recording(flag) && AllComplete(ticks)
    ensures RunState(flag, st, s, Stamps(ticks)) == s
    ensures RunSaves(flag, st, s, ticks) == []
    decreases |ticks|
  {
    if ticks != [] {
      assert Stamps(ticks)[1..] == Stamps(ticks[1..]);
      IdleRun(flag, st, s, ticks[1..]);
    }
  }

  /** The two frame numbers move together and never go back. */
  lemma {:induction false} NumbersInStep(flag: bv8, st: Settings, s: LoopState, stamps: seq<int>)
    ensures var r := RunState(flag, st, s, stamps);
      r.cnum - r.dnum == s.cnum - s.dnum && s.cnum <= r.cnum <= s.cnum + |stamps|
    decreases |stamps|
  {
    if stamps != [] {
      NumbersInStep(flag, st, Step(flag, st, s, stamps[0]), stamps[1..]);
    }
  }

  /** One tick writes the files of one recorded tick, or none. */
  lemma TickSlots(flag: bv8, st: Settings, s: LoopState, t: Tick)
    requires t.frames.Complete()
    ensures var s', d := Step(flag, st, s, t.stamp), Step(flag, st, s, t.stamp).cnum - s.cnum;
      && 0 <= d <= 1 && s'.dnum == s.dnum + d
      && Slots(TickSaves(flag, st, s, t), st.cpath, st.dpath, s.cnum, s.dnum, d)
  {
    var saves := TickSaves(flag, st, s, t);
    if Records(flag, st, s.cIncr, t.stamp) {
      OneSlot(ColourSave(st, s.cnum, t), DepthSave(st, s.dnum, t), st.cpath, st.dpath, s.cnum, s.dnum);
    } else {
      assert saves == [];
    }
  }

  /** The k-th recorded tick writes colour frame `cnum + k` then depth frame
      `dnum + k`, counting from the numbers the run started with. */
  lemma {:induction false} RunSavesPaths(flag: bv8, st: Settings, s: LoopState, ticks: seq<Tick>)
    requires AllComplete(ticks)
    ensures RunState(flag, st, s, Stamps(ticks)).cnum >= s.cnum
    ensures Slots(RunSaves(flag, st, s, ticks), st.cpath, st.dpath, s.cnum, s.dnum, RunState(flag, st, s, Stamps(ticks)).cnum - s.cnum)
    decreases |ticks|
  {
    if ticks != [] {
      var s' := Step(flag, st, s, ticks[0].stamp);
      assert Stamps(ticks)[1..] == Stamps(ticks[1..]);
      assert RunState(flag, st, s, Stamps(ticks)) == RunState(flag, st, s', Stamps(ticks[1..]));
      TickSlots(flag, st, s, ticks[0]);
      RunSavesPaths(flag, st, s', ticks[1..]);
      var d := s'.cnum - s.cnum;
      SlotsPrepend(TickSaves(flag, st, s, ticks[0]), RunSaves(flag, st, s', ticks[1..]), st.cpath, st.dpath, s.cnum, s.dnum, d,
                   RunState(flag, st, s', Stamps(ticks[1..])).cnum - s'.cnum);
    }
  }

  /** No file is written twice in a run: every recorded tick gets fresh
      colour and depth file names. */
  lemma RunSavesDistinct(flag: bv8, st: Settings, s: LoopState, ticks: seq<Tick>)
    requires AllComplete(ticks)
    ensures var saves := RunSaves(flag, st, s, ticks);
      forall i, j :: 0 <= i < j < |saves| ==> saves[i].path != saves[j].path
  {
    RunSavesPaths(flag, st, s, ticks);
    SlotsDistinct(RunSaves(flag, st, s, ticks), st.cpath, st.dpath, s.cnum, s.dnum, RunState(flag, st, s, Stamps(ticks)).cnum - s.cnum);
  }

  lemma {:induction false} RunSnoc(flag: bv8, st: Settings, s: LoopState, ticks: seq<Tick>, t: Tick)
    requires AllComplete(ticks) && t.frames.Complete()
    ensures AllComplete(ticks + [t])
    ensures Stamps(ticks + [t]) == Stamps(ticks) + [t.stamp]
    ensures RunState(flag, st, s, Stamps(ticks + [t])) == Step(flag, st, RunState(flag, st, s, Stamps(ticks)), t.stamp)
    ensures RunSaves(flag, st, s, ticks + [t]) ==
      RunSaves(flag, st, s, ticks) + TickSaves(flag, st, RunState(flag, st, s, Stamps(ticks)), t)
    decreases |ticks|
  {
    assert Stamps(ticks + [t]) == Stamps(ticks) + [t.stamp];
    if ticks == [] {
      assert ticks + [t] == [t];
    } else {
      var s' := Step(flag, st, s, ticks[0].stamp);
      assert (ticks + [t])[1..] == ticks[1..] + [t];
      assert Stamps(ticks)[1..] == Stamps(ticks[1..]);
      assert Stamps(ticks + [t])[1..] == Stamps(ticks[1..] + [t]);
      RunSnoc(flag, st, s', ticks[1..], t);
    }
  }

  // ---------------------------------------------------------------------
  // The recorder
  // ---------------------------------------------------------------------

  class Recorder {
    const disk: Disk
    const settings: Settings
    var movFlag: bv8
    var calibNum: int
    var cIncr: int
    var cnum: int
    var dnum: int

    function Ctl(): Controller
      reads this
    {
      Controller(movFlag, calibNum)
    }

    function Loop(): LoopState
      reads this
    {
      LoopState(cIncr, cnum, dnum)
    }

    /** Start-up: nothing recording, index 0, gate at 0, both frame numbers
        at 1000000; the interval is that of the default 30 fps, whatever
        `fps` was requested. */
    constructor (d: Disk, fps: int, cpath: string, dpath: string)
      ensures disk == d && settings == StartSettings(fps, cpath, dpath)
      ensures Ctl() == Controller(0, 0)
      ensures Loop() == LoopState(0, FIRST_FRAME_NUM, FIRST_FRAME_NUM)
    {
      disk := d;
      settings := StartSettings(fps, cpath, dpath);
      movFlag := 0;
      calibNum := 0;
      cIncr := 0;
      cnum := FIRST_FRAME_NUM;
      dnum := FIRST_FRAME_NUM;
    }

    /** The A key: the three writers, dispatched in order and numbered by
        `calib_num`; the index moves only when every writer started. */
    method TakeSnapshot(fs: FrameSet, outcome: SnapshotOutcome)
      requires fs.Complete()
      modifies this`calibNum, disk
      ensures calibNum == old(calibNum) + if outcome == AllDispatched then 1 else 0
      ensures disk.files == Apply(old(disk.files), SnapshotSaves(settings.cpath, settings.dpath, old(calibNum), fs, outcome))
    {
      var n := calibNum;
      var dFile := FileName("DepthSnap_", n, ".dat");
      var irFile := FileName("IRSnap_", n, ".dat");
      var cFile := FileName("ColSnap_", n, ".jpg");
      var cfilesave := new DevColImageFrame.ColImageFrame(COLWIDTH, COLHEIGHT);
      var dfilesave := new DevDepthImageFrame.DepthImageFrame(DEPTHWIDTH, DEPTHHEIGHT);
      var irfilesave := new DevIrImageFrame.IrImageFrame(DEPTHWIDTH, DEPTHHEIGHT);
      ghost var files0 := disk.files;
      ghost var all := SnapshotSaves(settings.cpath, settings.dpath, n, fs, AllDispatched);
      assert all[..0] == [];
      if Dispatched(outcome) >= 1 {
        cfilesave.SaveSnapshot(disk, fs.colour, settings.cpath, cFile);
        ApplyPrefix(files0, all, 0);
      }
      if Dispatched(outcome) >= 2 {
        var warned := dfilesave.SaveSnapshot(disk, fs.depth, settings.dpath, dFile);
        ApplyPrefix(files0, all, 1);
      }
      if Dispatched(outcome) >= 3 {
        var warned := irfilesave.SaveSnapshot(disk, fs.ir, settings.dpath, irFile);
        ApplyPrefix(files0, all, 2);
        assert all[..3] == all;
      }
      assert disk.files == Apply(files0, all[..Dispatched(outcome)]);
      assert all[..Dispatched(outcome)] == SnapshotSaves(settings.cpath, settings.dpath, n, fs, outcome);
      if outcome == AllDispatched {
        calibNum := calibNum + 1;
      }
    }

    /** `key_callback`; `fs` is the frameset the snapshot waits for and
        `outcome` how its dispatch ends. */
    method KeyCallback(key: Key, action: Action, fs: FrameSet, outcome: SnapshotOutcome) returns (helpShown: bool)
      requires fs.Complete()
      modifies this`movFlag, this`calibNum, disk
      ensures Ctl() == OnKey(old(Ctl()), key, action, outcome)
      ensures helpShown == ShowsHelp(old(Ctl()), key, action)
      ensures disk.files == Apply(old(disk.files), KeySaves(old(Ctl()), key, action, settings.cpath, settings.dpath, fs, outcome))
    {
      helpShown := false;
      if action != Press {
        return;
      }
      match key
      case KeyA =>
        if !Recording(movFlag) {
          TakeSnapshot(fs, outcome);
        }
      case KeyM =>
        movFlag := StartAll(movFlag);
      case KeyE =>
        movFlag := STOPPED;
      case _ =>
        helpShown := !Recording(movFlag);
    }

    /** One iteration of the main loop, after the key events it polled. */
    method Tick(t: Tick)
      requires t.frames.Complete()
      modifies this`cIncr, this`cnum, this`dnum, disk
      ensures Loop() == Step(movFlag, settings, old(Loop()), t.stamp)
      ensures disk.files == Apply(old(disk.files), TickSaves(movFlag, settings, old(Loop()), t))
    {
      if Recording(movFlag) {
        var cfilesave := new DevColImageFrame.ColImageFrame(COLWIDTH, COLHEIGHT);
        var dfilesave := new DevDepthImageFrame.DepthImageFrame(DEPTHWIDTH, DEPTHHEIGHT);
        ghost var files0 := disk.files;
        ghost var saves := TickSaves(movFlag, settings, Loop(), t);
        if settings.fps < FRAMERATE_LIM {
          if t.stamp - cIncr >= settings.interval {
            cfilesave.SaveMovie(disk, t.frames.colour, settings.cpath, cnum);
            dfilesave.SaveMovie(disk, t.frames.depth, settings.dpath, dnum);
            ApplyTwo(files0, saves[0], saves[1]);
            dnum := dnum + 1;
            cnum := cnum + 1;
            cIncr := t.stamp;
          }
        } else {
          cfilesave.SaveMovie(disk, t.frames.colour, settings.cpath, cnum);
          dfilesave.SaveMovie(disk, t.frames.depth, settings.dpath, dnum);
          ApplyTwo(files0, saves[0], saves[1]);
          cnum := cnum + 1;
          dnum := dnum + 1;
        }
      }
    }

    /** The main loop over a run of ticks with no key pressed in between. */
    method RecordTicks(ticks: seq<Tick>)
      requires AllComplete(ticks)
      modifies this`cIncr, this`cnum, this`dnum, disk
      ensures Loop() == RunState(movFlag, settings, old(Loop()), Stamps(ticks))
      ensures disk.files == Apply(old(disk.files), RunSaves(movFlag, settings, old(Loop()), ticks))
    {
      ghost var s0, files0 := Loop(), disk.files;
      var i := 0;
      assert ticks[..0] == [];
      while i < |ticks|
        invariant 0 <= i <= |ticks|
        invariant AllComplete(ticks[..i])
        invariant Loop() == RunState(movFlag, settings, s0, Stamps(ticks[..i]))
        invariant disk.files == Apply(files0, RunSaves(movFlag, settings, s0, ticks[..i]))
      {
        ghost var before := disk.files;
        ghost var sBefore := Loop();
        Tick(ticks[i]);
        RunSnoc(movFlag, settings, s0, ticks[..i], ticks[i]);
        assert ticks[..i + 1] == ticks[..i] + [ticks[i]];
        ApplyAppend(files0, RunSaves(movFlag, settings, s0, ticks[..i]), TickSaves(movFlag, settings, sBefore, ticks[i]));
        i := i + 1;
      }
      assert ticks[..i] == ticks;
    }
  }
}
