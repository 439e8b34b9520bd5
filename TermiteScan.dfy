/** The librealsense1 recorder (TermiteScan.cpp): snapshot savers with one
    counter per stream, key rules for the recording flag and the colour
    options, the three recording branches of the main loop with the
    timestamp queue, and the colour compression consumer that turns queued
    raw frames into JPEG files. */
module TermiteScan {
  import opened Files
  import opened Pixels
  import opened RateGate
  import opened Controls

  const COLWIDTH: nat := 1920
  const COLHEIGHT: nat := 1080
  const COL_SWIDTH: nat := 640
  const COL_SHEIGHT: nat := 480
  const DEPTHWIDTH: nat := 640
  const DEPTHHEIGHT: nat := 480
  /** Bytes of a depth frame (two per pixel) and of an infrared frame (one). */
  const DEPTH_BYTES: nat := DEPTHWIDTH * DEPTHHEIGHT * 2
  const IR_BYTES: nat := DEPTHWIDTH * DEPTHHEIGHT
  const FIRST_FRAME_NUM: int := 1000000
  /** Capacity of `timestampList`; a push onto a full queue is dropped. */
  const QUEUE_CAPACITY: nat := 90000
  /** Size of `readBuf`: 1024 packed pixels. */
  const CHUNK_BYTES: nat := 3072
  const CHUNK_PIXELS: nat := 1024

  // ---------------------------------------------------------------------
  // Colour geometry
  // ---------------------------------------------------------------------

  function ColWidth(hres: bool): nat {
    if hres then COLWIDTH else COL_SWIDTH
  }

  function ColHeight(hres: bool): nat {
    if hres then COLHEIGHT else COL_SHEIGHT
  }

  /** `arraysize` of the colour savers: pixels per colour frame. */
  function ColArraySize(hres: bool): nat {
    ColWidth(hres) * ColHeight(hres)
  }

  /** The planar view the colour savers encode, sized by the stream's
      geometry. */
  function ColourView(hres: bool, p: Planes): PlanarImage {
    PlanarImage(ColWidth(hres), ColHeight(hres), p.r, p.g, p.b)
  }

  /** The view as `saveColIm` and `colorFrame` build it: 1920 x 1080 whatever
      `hresflag` says. */
  function ColourViewAsWritten(hres: bool, p: Planes): PlanarImage {
    PlanarImage(COLWIDTH, COLHEIGHT, p.r, p.g, p.b)
  }

  /** The corrected view covers exactly the de-interleaved planes, in both
      geometries, and is what the colour JPEG of a packed frame holds. */
  lemma ColourViewCoversPlanes(hres: bool, packed: seq<Byte>)
    requires 3 * ColArraySize(hres) <= |packed|
    ensures var p := Deinterleave(packed, ColArraySize(hres));
      && ColourView(hres, p).width * ColourView(hres, p).height == |p.r| == |p.g| == |p.b|
      && JpegFile(ColourView(hres, p), JPEG_QUALITY) == ColourJpeg(ColWidth(hres), ColHeight(hres), packed)
  {
  }

  /** With `hresflag` false the as-written view spans 1920 x 1080 = 2073600
      pixels over planes of 640 x 480 = 307200: the encoder reads far past
      the end of `colR`, `colG` and `colB`. With `hresflag` true the two
      views agree. */
  lemma ViewGeometryMismatch(packed: seq<Byte>)
    requires 3 * ColArraySize(true) <= |packed|
    ensures var small := Deinterleave(packed, ColArraySize(false));
      && ColourViewAsWritten(false, small).width * ColourViewAsWritten(false, small).height == 2073600
      && |small.r| == 307200
      && ColourViewAsWritten(false, small) != ColourView(false, small)
    ensures var large := Deinterleave(packed, ColArraySize(true));
      ColourViewAsWritten(true, large) == ColourView(true, large)
  {
  }

  // ---------------------------------------------------------------------
  // Device frames and snapshot files
  // ---------------------------------------------------------------------

  /** The frames `get_frame_data` returns for the three streams. */
  datatype FrameSet = FrameSet(colour: seq<Byte>, depth: seq<Byte>, ir: seq<Byte>) {
    predicate Complete(hres: bool) {
      3 * ColArraySize(hres) <= |colour| && DEPTH_BYTES <= |depth| && IR_BYTES <= |ir|
    }
  }

  datatype Stream = Colour | Depth | Infrared

  /** Fixed for a run: framerate, the two gate intervals, `hresflag`, the
      colour and depth folders. */
  datatype Settings = Settings(fps: int, cInterval: int, dInterval: int, hres: bool, cpath: string, dpath: string)

  /** The file a snapshot saver writes for calibration number `n`. */
  function SnapshotSave(st: Settings, stream: Stream, n: int, fs: FrameSet): Save
    requires fs.Complete(st.hres)
  {
    match stream
    case Colour => Save(Path(st.cpath, FileName("ColSnap_", n, ".jpg")), ColourJpeg(ColWidth(st.hres), ColHeight(st.hres), fs.colour))
    case Depth => Save(Path(st.dpath, FileName("DepthSnap_", n, ".dat")), RawFile(fs.depth[..DEPTH_BYTES]))
    case Infrared => Save(Path(st.dpath, FileName("IRSnap_", n, ".dat")), RawFile(fs.ir[..IR_BYTES]))
  }

  /** Snapshot files of different streams, or of one stream with different
      numbers, never collide. */
  lemma SnapshotSavesDistinct(st: Settings, a: Stream, n: int, b: Stream, m: int, fs: FrameSet, gs: FrameSet)
    requires fs.Complete(st.hres) && gs.Complete(st.hres)
    requires a != b || n != m
    ensures SnapshotSave(st, a, n, fs).path != SnapshotSave(st, b, m, gs).path
  {
    var p, q := SnapshotSave(st, a, n, fs).path, SnapshotSave(st, b, m, gs).path;
    if a == b {
      match a
      case Colour => FileNameInjective("ColSnap_", ".jpg", n, m);
      case Depth => FileNameInjective("DepthSnap_", ".dat", n, m);
      case Infrared => FileNameInjective("IRSnap_", ".dat", n, m);
    } else {
      assert p.name[0] != q.name[0];
    }
  }

  // ---------------------------------------------------------------------
  // Key callback
  // ---------------------------------------------------------------------

  /** `g_movflag`, `loopflag` and the three static calibration counters. */
  datatype Controller = Controller(flag: bv8, loopFlag: bool, calibCol: int, calibDepth: int, calibIR: int)

  /** The savers a snapshot key starts: A all three, 1 colour, 2 depth, 3
      infrared. */
  function SnapshotStreams(key: Key): seq<Stream> {
    match key
    case KeyA => [Colour, Depth, Infrared]
    case Key1 => [Colour]
    case Key2 => [Depth]
    case Key3 => [Infrared]
    case _ => []
  }

  predicate TakesSnapshot(c: Controller, key: Key, action: Action) {
    action == Press && SnapshotStreams(key) != [] && !Recording(c.flag)
  }

  function Counter(c: Controller, stream: Stream): int {
    match stream
    case Colour => c.calibCol
    case Depth => c.calibDepth
    case Infrared => c.calibIR
  }

  function Bump(c: Controller, stream: Stream): Controller {
    match stream
    case Colour => c.(calibCol := c.calibCol + 1)
    case Depth => c.(calibDepth := c.calibDepth + 1)
    case Infrared => c.(calibIR := c.calibIR + 1)
  }


  function OnKey(c: Controller, key: Key, action: Action): Controller {
    if action != Press then c
    else match key
      case KeyM =>
        var f := StartAll(c.flag);
        c.(flag := f, loopFlag := if Recording(f) then true else c.loopFlag)
      case KeyC => c.(flag := Toggle(c.flag, COL_MOV))
      case KeyD => c.(flag := Toggle(c.flag, DEP_MOV))
      case KeyE => c.(flag := STOPPED)
      case KeyA => if Recording(c.flag) then c else Bump(Bump(Bump(c, Colour), Depth), Infrared)
      case Key1 => if Recording(c.flag) then c else Bump(c, Colour)
      case Key2 => if Recording(c.flag) then c else Bump(c, Depth)
      case Key3 => if Recording(c.flag) then c else Bump(c, Infrared)
      case _ => c
  }

  /** The snapshot files a key writes, one per started saver. */
  function KeySaves(c: Controller, key: Key, action: Action, st: Settings, fs: FrameSet): seq<Save>
    requires fs.Complete(st.hres)
  {
    if TakesSnapshot(c, key, action) then
      seq(|SnapshotStreams(key)|, i requires 0 <= i < |SnapshotStreams(key)| =>
        SnapshotSave(st, SnapshotStreams(key)[i], Counter(c, SnapshotStreams(key)[i]), fs))
    else []
  }

  /** Snapshot keys do nothing while bit 0x01 is set. Otherwise every saver
      a key starts moves its own counter by exactly one and writes the file
      numbered by the counter's value before the move; no other counter
      moves. */
  lemma SnapshotRules(c: Controller, key: Key, action: Action, st: Settings, fs: FrameSet)
    requires fs.Complete(st.hres)
    requires key.KeyA? || key.Key1? || key.Key2? || key.Key3?
    ensures Recording(c.flag) ==> OnKey(c, key, action) == c && KeySaves(c, key, action, st, fs) == []
    ensures OnKey(c, key, action).flag == c.flag && OnKey(c, key, action).loopFlag == c.loopFlag
    ensures forall s: Stream ::
              Counter(OnKey(c, key, action), s) ==
              Counter(c, s) + (if TakesSnapshot(c, key, action) && s in SnapshotStreams(key) then 1 else 0)
    ensures forall i :: 0 <= i < |KeySaves(c, key, action, st, fs)| ==>
      var s := SnapshotStreams(key)[i];
      KeySaves(c, key, action, st, fs)[i] == SnapshotSave(st, s, Counter(c, s), fs)
  {
  }

  /** M sets bit 0x01 (keeping the rest) and raises `loopflag`; C and D flip
      only their own bit; E clears every bit; no other key touches the flag. */
  lemma FlagRules(c: Controller, key: Key, action: Action)
    ensures var c' := OnKey(c, key, action);
      && (action == Press && key == KeyM ==>
            Recording(c'.flag) && c'.flag & !ALL_MOV == c.flag & !ALL_MOV && c'.loopFlag)
      && (action == Press && key == KeyC ==>
            HasBit(c'.flag, COL_MOV) == !HasBit(c.flag, COL_MOV) && c'.flag & !COL_MOV == c.flag & !COL_MOV)
      && (action == Press && key == KeyD ==>
            HasBit(c'.flag, DEP_MOV) == !HasBit(c.flag, DEP_MOV) && c'.flag & !DEP_MOV == c.flag & !DEP_MOV)
      && (action == Press && key == KeyE ==> c'.flag == 0)
      && (c'.flag != c.flag ==> action == Press && (key == KeyM || key == KeyC || key == KeyD || key == KeyE))
  {
    OnlyFlagKeysChangeFlag(c, key, action);
    if action == Press {
      match key {
        case KeyM => MKeyRule(c);
        case KeyC => ToggleKeyRule(c, KeyC, COL_MOV);
        case KeyD => ToggleKeyRule(c, KeyD, DEP_MOV);
        case _ =>
      }
    }
  }

  lemma MKeyRule(c: Controller)
    ensures var c' := OnKey(c, KeyM, Press);
      Recording(c'.flag) && c'.flag & !ALL_MOV == c.flag & !ALL_MOV && c'.loopFlag
  {
    StartAllProperties(c.flag);
  }

  lemma ToggleKeyRule(c: Controller, key: Key, bit: bv8)
    requires (key == KeyC && bit == COL_MOV) || (key == KeyD && bit == DEP_MOV)
    ensures var c' := OnKey(c, key, Press);
      HasBit(c'.flag, bit) == !HasBit(c.flag, bit) && c'.flag & !bit == c.flag & !bit
  {
    ToggleProperties(c.flag, bit);
  }

  lemma OnlyFlagKeysChangeFlag(c: Controller, key: Key, action: Action)
    ensures OnKey(c, key, action).flag != c.flag ==>
      action == Press && (key == KeyM || key == KeyC || key == KeyD || key == KeyE)
  {
  }

  // ---------------------------------------------------------------------
  // Colour options (keys P, S, F)
  // ---------------------------------------------------------------------

  /** The option values `get_option` reports. */
  datatype ColourOptions = ColourOptions(autoExposure: int, exposure: int, sharpness: int,
                                         autoWhiteBalance: int, whiteBalance: int)

  /** The `set_option` call a key makes. */
  datatype OptionWrite =
    | SetExposure(exposure: int)
    | EnableAutoExposure
    | SetSharpness(sharpness: int)
    | SetWhiteBalance(whiteBalance: int)
    | EnableAutoWhiteBalance

  /** P: from auto exposure start manual at 40, then step by 45 until 900 is
      reached, then hand back to auto. */
  function ExposureCommand(o: ColourOptions): OptionWrite {
    if o.autoExposure != 0 then SetExposure(40)
    else if o.exposure < 900 then SetExposure(o.exposure + 45)
    else EnableAutoExposure
  }

  /** S: step by 5 below 99, otherwise back to the default 50. */
  function SharpnessCommand(o: ColourOptions): OptionWrite {
    if o.sharpness < 99 then SetSharpness(o.sharpness + 5) else SetSharpness(50)
  }

  /** F: from auto white balance start manual at 9000, then step down by 500
      while above 2500, then hand back to auto. */
  function WhiteBalanceCommand(o: ColourOptions): OptionWrite {
    if o.autoWhiteBalance != 0 then SetWhiteBalance(9000)
    else if o.whiteBalance > 2500 then SetWhiteBalance(o.whiteBalance - 500)
    else EnableAutoWhiteBalance
  }

  /** The option write a key press makes; exposure only while not recording. */
  function KeyCommand(c: Controller, key: Key, action: Action, o: ColourOptions): Option<OptionWrite> {
    if action != Press then None
    else match key
      case KeyP => if Recording(c.flag) then None else Some(ExposureCommand(o))
      case KeyS => Some(SharpnessCommand(o))
      case KeyF => Some(WhiteBalanceCommand(o))
      case _ => None
  }

  /** Manual exposures reachable by P: 40, 85, ..., 940. */
  predicate ExposureLadder(v: int) {
    40 <= v <= 940 && (v - 40) % 45 == 0
  }

  /** From auto, or from any manual value on the ladder, P commands the next
      rung, and hands back to auto exactly from the top rung 940. */
  lemma ExposureCycle(o: ColourOptions)
    ensures o.autoExposure != 0 ==> ExposureCommand(o) == SetExposure(40) && ExposureLadder(40)
    ensures o.autoExposure == 0 && ExposureLadder(o.exposure) ==>
      if o.exposure == 940 then ExposureCommand(o) == EnableAutoExposure
      else ExposureCommand(o).SetExposure? && ExposureLadder(ExposureCommand(o).exposure)
           && ExposureCommand(o).exposure == o.exposure + 45
    ensures ExposureCommand(o).SetExposure? && o.autoExposure == 0 ==> ExposureCommand(o).exposure < 945
  {
  }

  /** Sharpness values reachable by S from the default: 50, 55, ..., 100. */
  predicate SharpnessLadder(v: int) {
    50 <= v <= 100 && v % 5 == 0
  }

  /** S keeps the sharpness on the ladder, and any value of 99 or more
      resets to 50. */
  lemma SharpnessCycle(o: ColourOptions)
    ensures SharpnessCommand(o).SetSharpness?
    ensures SharpnessLadder(o.sharpness) ==> SharpnessLadder(SharpnessCommand(o).sharpness)
    ensures o.sharpness >= 99 ==> SharpnessCommand(o) == SetSharpness(50)
    ensures o.sharpness < 99 ==> SharpnessCommand(o) == SetSharpness(o.sharpness + 5)
    ensures SharpnessCommand(o).sharpness < 104
  {
  }

  /** Manual white balances reachable by F: 9000, 8500, ..., 2500. */
  predicate WhiteBalanceLadder(v: int) {
    2500 <= v <= 9000 && v % 500 == 0
  }

  /** From auto, or from any manual value on the ladder, F commands the next
      rung down, and hands back to auto exactly from the bottom rung 2500. */
  lemma WhiteBalanceCycle(o: ColourOptions)
    ensures o.autoWhiteBalance != 0 ==> WhiteBalanceCommand(o) == SetWhiteBalance(9000) && WhiteBalanceLadder(9000)
    ensures o.autoWhiteBalance == 0 && WhiteBalanceLadder(o.whiteBalance) ==>
      if o.whiteBalance == 2500 then WhiteBalanceCommand(o) == EnableAutoWhiteBalance
      else WhiteBalanceCommand(o).SetWhiteBalance? && WhiteBalanceLadder(WhiteBalanceCommand(o).whiteBalance)
           && WhiteBalanceCommand(o).whiteBalance == o.whiteBalance - 500
    ensures WhiteBalanceCommand(o).SetWhiteBalance? && o.autoWhiteBalance == 0 ==>
      WhiteBalanceCommand(o).whiteBalance > 2000
  {
  }

  // ---------------------------------------------------------------------
  // Main loop
  // ---------------------------------------------------------------------

  /** `c_incr`, `d_incr`, `cnum`, `dnum` and the contents of `timestampList`. */
  datatype LoopState = LoopState(cIncr: int, dIncr: int, cnum: int, dnum: int, queue: seq<int>)

  datatype Tick = Tick(stamp: int, frames: FrameSet)

  /** Which branch of the loop body a tick takes. */
  datatype Branch = Gated | FullRate | DepthOnly | Display

  function BranchOf(flag: bv8, st: Settings): Branch {
    if Recording(flag) then (if st.fps < FRAMERATE_LIM then Gated else FullRate)
    else if HasBit(flag, DEP_MOV) then DepthOnly
    else Display
  }

  /** `timestampList.push`: the entry goes to the back unless the queue is
      full; the entries already queued keep their order, and a queue within
      its capacity stays within it. */
  function QueuePush(q: seq<int>, x: int): (r: seq<int>)
    ensures |r| == |q| + (if |q| < QUEUE_CAPACITY then 1 else 0)
    ensures r[..|q|] == q
    ensures |r| > |q| ==> r[|q|] == x
    ensures |q| <= QUEUE_CAPACITY ==> |r| <= QUEUE_CAPACITY
  {
    if |q| < QUEUE_CAPACITY then q + [x] else q
  }

  function Step(flag: bv8, st: Settings, s: LoopState, stamp: int): LoopState {
    match BranchOf(flag, st)
    case Gated =>
      if Admits(stamp, s.cIncr, st.cInterval) then s.(dIncr := stamp, dnum := s.dnum + 1, cIncr := stamp, cnum := s.cnum + 1)
      else s
    case FullRate => s.(queue := QueuePush(s.queue, stamp), cnum := s.cnum + 1, dnum := s.dnum + 1)
    case DepthOnly =>
      if Admits(stamp, s.dIncr, st.dInterval) then s.(dIncr := stamp, dnum := s.dnum + 1) else s
    case Display => s
  }

  /** The colour movie file of a recorded tick, numbered `n`. */
  function ColourSave(st: Settings, n: int, t: Tick): Save
    requires t.frames.Complete(st.hres)
  {
    Save(ColourMoviePath(st.cpath, n), ColourJpeg(ColWidth(st.hres), ColHeight(st.hres), t.frames.colour))
  }

  /** The depth movie file of a recorded tick, numbered `n`. */
  function DepthSave(st: Settings, n: int, t: Tick): Save
    requires t.frames.Complete(st.hres)
  {
    Save(DepthMoviePath(st.dpath, n), RawFile(t.frames.depth[..DEPTH_BYTES]))
  }

  /** The movie files one tick writes: colour `cnum` and depth `dnum` on the
      recording branches, depth numbered by the stamp on the depth-only
      branch. */
  function TickSaves(flag: bv8, st: Settings, s: LoopState, t: Tick): seq<Save>
    requires t.frames.Complete(st.hres)
  {
    match BranchOf(flag, st)
    case Gated =>
      if Admits(t.stamp, s.cIncr, st.cInterval) then [ColourSave(st, s.cnum, t), DepthSave(st, s.dnum, t)] else []
    case FullRate => [ColourSave(st, s.cnum, t), DepthSave(st, s.dnum, t)]
    case DepthOnly =>
      if Admits(t.stamp, s.dIncr, st.dInterval) then [DepthSave(st, t.stamp, t)] else []
    case Display => []
  }

  // The run definitions from here on (`AllComplete`, `Stamps`, `RunSaves`,
  // `GatedTicks`, `RecordedSaves`, `GatedSaves`, ...) are repeated in each
  // program's module on purpose: each is stated over that program's own
  // `Tick`, `Settings` and loop step.
  predicate AllComplete(hres: bool, ticks: seq<Tick>) {
    forall i :: 0 <= i < |ticks| ==> ticks[i].frames.Complete(hres)
  }

  function Stamps(ticks: seq<Tick>): seq<int> {
    seq(|ticks|, i requires 0 <= i < |ticks| => ticks[i].stamp)
  }

  function RunState(flag: bv8, st: Settings, s: LoopState, stamps: seq<int>): LoopState
    decreases |stamps|
  {
    if stamps == [] then s else RunState(flag, st, Step(flag, st, s, stamps[0]), stamps[1..])
  }

  function RunSaves(flag: bv8, st: Settings, s: LoopState, ticks: seq<Tick>): seq<Save>
    requires AllComplete(st.hres, ticks)
    decreases |ticks|
  {
    if ticks == [] then []
    else TickSaves(flag, st, s, ticks[0]) + RunSaves(flag, st, Step(flag, st, s, ticks[0].stamp), ticks[1..])
  }

  /** Gated branch: exactly the ticks the colour gate admits are recorded;
      `c_incr` ends on the last of them, `d_incr` follows it, both numbers
      advance by their count and the queue is untouched. */
  lemma {:induction false} GatedRun(flag: bv8, st: Settings, s: LoopState, stamps: seq<int>)
    requires BranchOf(flag, st) == Gated
    ensures var r, a := RunState(flag, st, s, stamps), Admitted(stamps, s.cIncr, st.cInterval);
      && r.cIncr == GateAfter(stamps, s.cIncr, st.cInterval)
      && r.dIncr == (if a == [] then s.dIncr else r.cIncr)
      && r.cnum == s.cnum + |a| && r.dnum == s.dnum + |a|
      && r.queue == s.queue
    decreases |stamps|
  {
    if stamps != [] {
      var s' := Step(flag, st, s, stamps[0]);
      GatedRun(flag, st, s', stamps[1..]);
      GateAfterIsLastAdmitted(stamps[1..], s'.cIncr, st.cInterval);
    }
  }

  /** The ticks the gated branch records are the ones the colour gate
      admits: their stamps are the admitted stamps, in order. */
  lemma {:induction false} GatedTicks(st: Settings, s: LoopState, ticks: seq<Tick>)
    requires AllComplete(st.hres, ticks)
    ensures var r := AdmittedItems(ticks, Stamps(ticks), s.cIncr, st.cInterval);
      AllComplete(st.hres, r) && Stamps(r) == Admitted(Stamps(ticks), s.cIncr, st.cInterval)
    decreases |ticks|
  {
    if ticks != [] {
      var stamps := Stamps(ticks);
      var next := if Admits(ticks[0].stamp, s.cIncr, st.cInterval) then ticks[0].stamp else s.cIncr;
      assert stamps[1..] == Stamps(ticks[1..]);
      CompleteTail(st.hres, ticks);
      GatedTicks(st, s.(cIncr := next), ticks[1..]);
      var r, r' := AdmittedItems(ticks, stamps, s.cIncr, st.cInterval), AdmittedItems(ticks[1..], stamps[1..], next, st.cInterval);
      if Admits(ticks[0].stamp, s.cIncr, st.cInterval) {
        assert r == [ticks[0]] + r';
        assert Stamps(r) == [ticks[0].stamp] + Stamps(r');
      }
    }
  }

  lemma CompleteTail(hres: bool, ticks: seq<Tick>)
    requires AllComplete(hres, ticks) && ticks != []
    ensures ticks[0].frames.Complete(hres) && AllComplete(hres, ticks[1..])
  {
    forall i | 0 <= i < |ticks[1..]| ensures ticks[1..][i].frames.Complete(hres) {
      assert ticks[1..][i] == ticks[i + 1];
    }
  }

  /** The movie files of the recorded ticks `r`, numbered from `cn` and
      `dn`: each tick's colour frame, then its depth frame. */
  function RecordedSaves(st: Settings, cn: int, dn: int, r: seq<Tick>): seq<Save>
    requires AllComplete(st.hres, r)
    decreases |r|
  {
    if r == [] then []
    else [ColourSave(st, cn, r[0]), DepthSave(st, dn, r[0])] + RecordedSaves(st, cn + 1, dn + 1, r[1..])
  }

  /** The k-th recorded tick is written as `col_frame_<cn + k>.jpg` then
      `depth_frame_<dn + k>.dat`. */
  lemma {:induction false} RecordedSlots(st: Settings, cn: int, dn: int, r: seq<Tick>)
    requires AllComplete(st.hres, r)
    ensures Slots(RecordedSaves(st, cn, dn, r), st.cpath, st.dpath, cn, dn, |r|)
    decreases |r|
  {
    if r != [] {
      CompleteTail(st.hres, r);
      OneSlot(ColourSave(st, cn, r[0]), DepthSave(st, dn, r[0]), st.cpath, st.dpath, cn, dn);
      RecordedSlots(st, cn + 1, dn + 1, r[1..]);
      SlotsPrepend([ColourSave(st, cn, r[0]), DepthSave(st, dn, r[0])], RecordedSaves(st, cn + 1, dn + 1, r[1..]),
                   st.cpath, st.dpath, cn, dn, 1, |r| - 1);
    }
  }

  /** Gated branch: the files written are those of the ticks the colour gate
      admits, in order, the k-th of them as colour frame `cnum + k` then
      depth frame `dnum + k`. */
  lemma {:induction false} GatedSaves(flag: bv8, st: Settings, s: LoopState, ticks: seq<Tick>)
    requires BranchOf(flag, st) == Gated && AllComplete(st.hres, ticks)
    ensures var r := AdmittedItems(ticks, Stamps(ticks), s.cIncr, st.cInterval);
      && AllComplete(st.hres, r) && Stamps(r) == Admitted(Stamps(ticks), s.cIncr, st.cInterval)
      && RunSaves(flag, st, s, ticks) == RecordedSaves(st, s.cnum, s.dnum, r)
      && Slots(RunSaves(flag, st, s, ticks), st.cpath, st.dpath, s.cnum, s.dnum, |r|)
    decreases |ticks|
  {
    GatedTicks(st, s, ticks);
    if ticks != [] {
      var stamps := Stamps(ticks);
      var s' := Step(flag, st, s, ticks[0].stamp);
      assert stamps[1..] == Stamps(ticks[1..]);
      CompleteTail(st.hres, ticks);
      GatedSaves(flag, st, s', ticks[1..]);
      var r, r' := AdmittedItems(ticks, stamps, s.cIncr, st.cInterval), AdmittedItems(ticks[1..], Stamps(ticks[1..]), s'.cIncr, st.cInterval);
      if Admits(ticks[0].stamp, s.cIncr, st.cInterval) {
        assert r[1..] == r';
      } else {
        assert s' == s;
      }
    }
    RecordedSlots(st, s.cnum, s.dnum, AdmittedItems(ticks, Stamps(ticks), s.cIncr, st.cInterval));
  }

  /** Full-rate branch: every tick is recorded and its stamp queued, as long
      as the queue has room; the gates are untouched. */
  lemma {:induction false} FullRateRun(flag: bv8, st: Settings, s: LoopState, stamps: seq<int>)
    requires BranchOf(flag, st) == FullRate
    ensures var r := RunState(flag, st, s, stamps);
      && r.cIncr == s.cIncr && r.dIncr == s.dIncr
      && r.cnum == s.cnum + |stamps| && r.dnum == s.dnum + |stamps|
      && (|s.queue| + |stamps| <= QUEUE_CAPACITY ==> r.queue == s.queue + stamps)
      && (|s.queue| <= QUEUE_CAPACITY ==> |r.queue| <= QUEUE_CAPACITY)
    decreases |stamps|
  {
    if stamps != [] {
      FullRateRun(flag, st, Step(flag, st, s, stamps[0]), stamps[1..]);
      assert s.queue + stamps == (s.queue + [stamps[0]]) + stamps[1..];
    }
  }

  /** Depth-only branch: the depth gate decides alone; `cnum`, `c_incr` and
      the queue are untouched. */
  lemma {:induction false} DepthOnlyRun(flag: bv8, st: Settings, s: LoopState, stamps: seq<int>)
    requires BranchOf(flag, st) == DepthOnly
    ensures var r := RunState(flag, st, s, stamps);
      && r.dIncr == GateAfter(stamps, s.dIncr, st.dInterval)
      && r.dnum == s.dnum + |Admitted(stamps, s.dIncr, st.dInterval)|
      && r.cIncr == s.cIncr && r.cnum == s.cnum && r.queue == s.queue
    decreases |stamps|
  {
    if stamps != [] {
      DepthOnlyRun(flag, st, Step(flag, st, s, stamps[0]), stamps[1..]);
    }
  }

  /** On the depth-only branch the i-th depth file written is named by the
      i-th admitted stamp, not by `dnum`. */
  lemma {:induction false} DepthOnlyPaths(flag: bv8, st: Settings, s: LoopState, ticks: seq<Tick>)
    requires BranchOf(flag, st) == DepthOnly && AllComplete(st.hres, ticks)
    ensures var saves, a := RunSaves(flag, st, s, ticks), Admitted(Stamps(ticks), s.dIncr, st.dInterval);
      && |saves| == |a|
      && forall i :: 0 <= i < |saves| ==> saves[i].path == DepthMoviePath(st.dpath, a[i])
    decreases |ticks|
  {
    if ticks != [] {
      var stamps := Stamps(ticks);
      var saves, a := RunSaves(flag, st, s, ticks), Admitted(stamps, s.dIncr, st.dInterval);
      var s' := Step(flag, st, s, ticks[0].stamp);
      assert stamps[1..] == Stamps(ticks[1..]);
      DepthOnlyPaths(flag, st, s', ticks[1..]);
      var rest, ra := RunSaves(flag, st, s', ticks[1..]), Admitted(Stamps(ticks[1..]), s'.dIncr, st.dInterval);
      if Admits(ticks[0].stamp, s.dIncr, st.dInterval) {
        assert a == [ticks[0].stamp] + ra;
        assert saves == [DepthSave(st, ticks[0].stamp, ticks[0])] + rest;
      } else {
        assert a == ra && saves == rest;
      }
    }
  }

  /** With a positive depth interval the depth-only branch never writes the
      same file twice in a run. */
  lemma DepthOnlySaves(flag: bv8, st: Settings, s: LoopState, ticks: seq<Tick>)
    requires BranchOf(flag, st) == DepthOnly && AllComplete(st.hres, ticks) && st.dInterval >= 1
    ensures var saves := RunSaves(flag, st, s, ticks);
      forall i, j :: 0 <= i < j < |saves| ==> saves[i].path != saves[j].path
  {
    var stamps := Stamps(ticks);
    var saves, a := RunSaves(flag, st, s, ticks), Admitted(stamps, s.dIncr, st.dInterval);
    DepthOnlyPaths(flag, st, s, ticks);
    AdmittedSpacing(stamps, s.dIncr, st.dInterval);
    StrictlyIncreasing(a, st.dInterval);
    forall i, j | 0 <= i < j < |saves|
      ensures saves[i].path != saves[j].path
    {
      DepthMoviePathInjective(st.dpath, a[i], a[j]);
    }
  }

  lemma {:induction false} StrictlyIncreasing(a: seq<int>, interval: int)
    requires interval >= 1
    requires forall i :: 0 <= i < |a| - 1 ==> a[i + 1] - a[i] >= interval
    ensures forall i, j :: 0 <= i < j < |a| ==> a[i] < a[j]
    decreases |a|
  {
    if |a| > 1 {
      StrictlyIncreasing(a[1..], interval);
      forall i, j | 0 <= i < j < |a|
        ensures a[i] < a[j]
      {
        assert a[1] - a[0] >= interval;
        if i > 0 {
          assert a[1..][i - 1] < a[1..][j - 1];
        } else if j > 1 {
          assert a[1..][0] < a[1..][j - 1];
        }
      }
    }
  }

  /** Display branch (bit 0x01 and bit 0x04 clear, e.g. only the colour bit
      set): nothing changes and nothing is written. */
  lemma {:induction false} DisplayRun(flag: bv8, st: Settings, s: LoopState, ticks: seq<Tick>)
    requires !Recording(flag) && !HasBit(flag, DEP_MOV) && AllComplete(st.hres, ticks)
    ensures RunState(flag, st, s, Stamps(ticks)) == s
    ensures RunSaves(flag, st, s, ticks) == []
    decreases |ticks|
  {
    if ticks != [] {
      assert Stamps(ticks)[1..] == Stamps(ticks[1..]);
      DisplayRun(flag, st, s, ticks[1..]);
    }
  }

  /** The colour bit alone takes the display branch. */
  lemma ColourBitDisplays(st: Settings)
    ensures BranchOf(COL_MOV, st) == Display
  {
  }

  lemma {:induction false} RunStateSnoc(flag: bv8, st: Settings, s: LoopState, stamps: seq<int>, x: int)
    ensures RunState(flag, st, s, stamps + [x]) == Step(flag, st, RunState(flag, st, s, stamps), x)
    decreases |stamps|
  {
    if stamps == [] {
      assert stamps + [x] == [x];
    } else {
      assert (stamps + [x])[1..] == stamps[1..] + [x];
      RunStateSnoc(flag, st, Step(flag, st, s, stamps[0]), stamps[1..], x);
    }
  }

  lemma StampsSnoc(ticks: seq<Tick>, t: Tick)
    ensures Stamps(ticks + [t]) == Stamps(ticks) + [t.stamp]
    ensures ticks != [] ==> Stamps(ticks)[1..] == Stamps(ticks[1..]) && Stamps(ticks)[0] == ticks[0].stamp
  {
  }

  lemma {:induction false} RunSavesSnoc(flag: bv8, st: Settings, s: LoopState, ticks: seq<Tick>, t: Tick)
    requires AllComplete(st.hres, ticks) && t.frames.Complete(st.hres)
    ensures AllComplete(st.hres, ticks + [t])
    ensures RunSaves(flag, st, s, ticks + [t]) ==
      RunSaves(flag, st, s, ticks) + TickSaves(flag, st, RunState(flag, st, s, Stamps(ticks)), t)
    decreases |ticks|
  {
    var whole := ticks + [t];
    assert AllComplete(st.hres, whole) by {
      forall i | 0 <= i < |whole| ensures whole[i].frames.Complete(st.hres) {
        if i < |ticks| { assert whole[i] == ticks[i]; }
      }
    }
    if ticks == [] {
      assert whole == [t];
      assert RunSaves(flag, st, s, [t]) == TickSaves(flag, st, s, t) + RunSaves(flag, st, Step(flag, st, s, t.stamp), []);
    } else {
      var s' := Step(flag, st, s, ticks[0].stamp);
      assert whole[0] == ticks[0] && whole[1..] == ticks[1..] + [t];
      RunSavesSnoc(flag, st, s', ticks[1..], t);
      StampsSnoc(ticks, t);
      var head := TickSaves(flag, st, s, ticks[0]);
      var last := TickSaves(flag, st, RunState(flag, st, s', Stamps(ticks[1..])), t);
      assert RunState(flag, st, s, Stamps(ticks)) == RunState(flag, st, s', Stamps(ticks[1..]));
      calc {
        RunSaves(flag, st, s, whole);
        head + RunSaves(flag, st, s', ticks[1..] + [t]);
        head + (RunSaves(flag, st, s', ticks[1..]) + last);
        (head + RunSaves(flag, st, s', ticks[1..])) + last;
        RunSaves(flag, st, s, ticks) + last;
      }
    }
  }

  /** One more tick at the end of a run: the state takes one more step and
      the tick's files are written after the run's. */
  lemma RunSnoc(flag: bv8, st: Settings, s: LoopState, ticks: seq<Tick>, t: Tick)
    requires AllComplete(st.hres, ticks) && t.frames.Complete(st.hres)
    ensures AllComplete(st.hres, ticks + [t])
    ensures RunState(flag, st, s, Stamps(ticks + [t])) == Step(flag, st, RunState(flag, st, s, Stamps(ticks)), t.stamp)
    ensures RunSaves(flag, st, s, ticks + [t]) ==
      RunSaves(flag, st, s, ticks) + TickSaves(flag, st, RunState(flag, st, s, Stamps(ticks)), t)
  {
    StampsSnoc(ticks, t);
    RunStateSnoc(flag, st, s, Stamps(ticks), t.stamp);
    RunSavesSnoc(flag, st, s, ticks, t);
  }

  // ---------------------------------------------------------------------
  // Chunked read of a raw colour frame (colCompress)
  // ---------------------------------------------------------------------

  /** `readBuf` before the first `fread`. Its contents are indeterminate in
      C++; the model takes zeros. */
  function InitialReadBuf(): (buf: seq<Byte>)
    ensures |buf| == CHUNK_BYTES
  {
    seq(CHUNK_BYTES, i => 0)
  }

  /** The planes the `fread` loop builds from the remaining bytes `raw`, with
      `buf` the contents of `readBuf` so far: each read fills the front of the
      buffer (the rest keeps the previous chunk's bytes) and then 1024 pixels
      are pushed. */
  function ChunkRead(raw: seq<Byte>, buf: seq<Byte>): Planes
    requires |buf| == CHUNK_BYTES
    decreases |raw|
  {
    if raw == [] then Planes([], [], [])
    else
      var len := if |raw| < CHUNK_BYTES then |raw| else CHUNK_BYTES;
      var next := raw[..len] + buf[len..];
      Deinterleave(next, CHUNK_PIXELS).Append(ChunkRead(raw[len..], next))
  }

  /** How many `fread` calls return data for a file of `n` bytes. */
  function Reads(n: nat): nat
    decreases n
  {
    if n == 0 then 0 else if n < CHUNK_BYTES then 1 else 1 + Reads(n - CHUNK_BYTES)
  }

  /** Each read pushes 1024 pixels, even a short last one. */
  lemma {:induction false} ChunkReadLength(raw: seq<Byte>, buf: seq<Byte>)
    requires |buf| == CHUNK_BYTES
    ensures ChunkRead(raw, buf).Aligned()
    ensures |ChunkRead(raw, buf).r| == CHUNK_PIXELS * Reads(|raw|)
    decreases |raw|
  {
    if raw != [] {
      var len := if |raw| < CHUNK_BYTES then |raw| else CHUNK_BYTES;
      ChunkReadLength(raw[len..], raw[..len] + buf[len..]);
    }
  }

  /** Every complete pixel of the raw file lands in the planes, in order. */
  lemma ChunkReadPixels(raw: seq<Byte>, buf: seq<Byte>)
    requires |buf| == CHUNK_BYTES
    ensures var p := ChunkRead(raw, buf);
      && p.Aligned()
      && forall j :: 0 <= j && 3 * j + 2 < |raw| ==>
           j < |p.r| && p.r[j] == raw[3 * j] && p.g[j] == raw[3 * j + 1] && p.b[j] == raw[3 * j + 2]
  {
    ChunkReadLength(raw, buf);
    var p := ChunkRead(raw, buf);
    forall j | 0 <= j && 3 * j + 2 < |raw|
      ensures j < |p.r| && p.r[j] == raw[3 * j] && p.g[j] == raw[3 * j + 1] && p.b[j] == raw[3 * j + 2]
    {
      ChunkReadPixel(raw, buf, j);
    }
  }

  /** Pixel `j` of the raw file, followed through the reads. */
  lemma {:induction false} ChunkReadPixel(raw: seq<Byte>, buf: seq<Byte>, j: nat)
    requires |buf| == CHUNK_BYTES && 3 * j + 2 < |raw|
    ensures var p := ChunkRead(raw, buf);
      j < |p.r| && j < |p.g| && j < |p.b| &&
      p.r[j] == raw[3 * j] && p.g[j] == raw[3 * j + 1] && p.b[j] == raw[3 * j + 2]
    decreases |raw|
  {
    var len := if |raw| < CHUNK_BYTES then |raw| else CHUNK_BYTES;
    var next := raw[..len] + buf[len..];
    var rest := raw[len..];
    var head, tail := Deinterleave(next, CHUNK_PIXELS), ChunkRead(rest, next);
    assert ChunkRead(raw, buf) == head.Append(tail);
    assert |head.r| == |head.g| == |head.b| == CHUNK_PIXELS;
    if j < CHUNK_PIXELS {
      PixelOfHead(raw, buf, len, j);
    } else {
      PixelOfTail(raw, len, j);
      ChunkReadPixel(rest, next, j - CHUNK_PIXELS);
    }
  }

  lemma PixelOfHead(raw: seq<Byte>, buf: seq<Byte>, len: nat, j: nat)
    requires |buf| == CHUNK_BYTES && len <= |raw| && len <= CHUNK_BYTES
    requires j < CHUNK_PIXELS && 3 * j + 2 < |raw| && (len == |raw| || len == CHUNK_BYTES)
    ensures var d := Deinterleave(raw[..len] + buf[len..], CHUNK_PIXELS);
      d.r[j] == raw[3 * j] && d.g[j] == raw[3 * j + 1] && d.b[j] == raw[3 * j + 2]
  {
    assert 3 * j + 2 < len;
  }

  lemma PixelOfTail(raw: seq<Byte>, len: nat, j: nat)
    requires len == CHUNK_BYTES && len <= |raw| && CHUNK_PIXELS <= j && 3 * j + 2 < |raw|
    ensures var k, rest := j - CHUNK_PIXELS, raw[len..];
      && 3 * k + 2 < |rest|
      && rest[3 * k] == raw[3 * j] && rest[3 * k + 1] == raw[3 * j + 1] && rest[3 * k + 2] == raw[3 * j + 2]
  {
  }

  lemma AppendAssoc(a: Planes, b: Planes, c: Planes)
    ensures a.Append(b.Append(c)) == a.Append(b).Append(c)
  {
    assert a.r + (b.r + c.r) == (a.r + b.r) + c.r;
    assert a.g + (b.g + c.g) == (a.g + b.g) + c.g;
    assert a.b + (b.b + c.b) == (a.b + b.b) + c.b;
  }

  /** One read of the chunked loop, unfolded. */
  lemma ChunkReadStep(rest: seq<Byte>, buf: seq<Byte>, len: nat)
    requires |buf| == CHUNK_BYTES && rest != []
    requires len == if |rest| < CHUNK_BYTES then |rest| else CHUNK_BYTES
    ensures ChunkRead(rest, buf) ==
      Deinterleave(rest[..len] + buf[len..], CHUNK_PIXELS).Append(ChunkRead(rest[len..], rest[..len] + buf[len..]))
  {
  }

  lemma {:induction false} ReadsWhole(k: nat)
    ensures Reads(CHUNK_BYTES * k) == k
  {
    if k > 0 {
      ReadsWhole(k - 1);
    }
  }

  /** When the raw file is a whole number of reads long, as both colour
      geometries are (2025 and 300 reads), the chunked read gives exactly the
      planes of the direct de-interleave. */
  lemma ChunkReadWhole(raw: seq<Byte>, buf: seq<Byte>, k: nat)
    requires |buf| == CHUNK_BYTES && |raw| == CHUNK_BYTES * k
    ensures ChunkRead(raw, buf) == Deinterleave(raw, CHUNK_PIXELS * k)
  {
    ChunkReadLength(raw, buf);
    ChunkReadPixels(raw, buf);
    ReadsWhole(k);
    var n := CHUNK_PIXELS * k;
    assert n == 1024 * k && |raw| == 3 * n;
    PlanesOfPixels(ChunkRead(raw, buf), raw, n);
  }

  /** One `fread` into `readBuf`: up to 3072 bytes at the front, the rest of
      the buffer keeps its contents. */
  method FillReadBuf(readBuf: array<Byte>, raw: seq<Byte>, pos: nat) returns (len: nat)
    requires readBuf.Length == CHUNK_BYTES && pos < |raw|
    modifies readBuf
    ensures len == if |raw| - pos < CHUNK_BYTES then |raw| - pos else CHUNK_BYTES
    ensures readBuf[..] == raw[pos..][..len] + old(readBuf[..])[len..]
  {
    len := if |raw| - pos < CHUNK_BYTES then |raw| - pos else CHUNK_BYTES;
    forall i | 0 <= i < len {
      readBuf[i] := raw[pos + i];
    }
  }

  /** The inner loop: push the 1024 pixels of `readBuf` onto the three plane
      vectors. */
  method PushPixels(readBuf: array<Byte>, acc: Planes) returns (planes: Planes)
    requires readBuf.Length == CHUNK_BYTES
    ensures planes == acc.Append(Deinterleave(readBuf[..], CHUNK_PIXELS))
  {
    ghost var chunk := Deinterleave(readBuf[..], CHUNK_PIXELS);
    planes := acc;
    for j := 0 to CHUNK_PIXELS
      invariant planes == acc.Append(Planes(chunk.r[..j], chunk.g[..j], chunk.b[..j]))
    {
      assert chunk.r[..j + 1] == chunk.r[..j] + [readBuf[3 * j]];
      assert chunk.g[..j + 1] == chunk.g[..j] + [readBuf[3 * j + 1]];
      assert chunk.b[..j + 1] == chunk.b[..j] + [readBuf[3 * j + 2]];
      planes := Planes(planes.r + [readBuf[3 * j]], planes.g + [readBuf[3 * j + 1]], planes.b + [readBuf[3 * j + 2]]);
    }
    assert chunk.r[..CHUNK_PIXELS] == chunk.r && chunk.g[..CHUNK_PIXELS] == chunk.g && chunk.b[..CHUNK_PIXELS] == chunk.b;
  }

  /** The read loop of `colCompress`: `fread` into a fresh `readBuf` until
      the file is exhausted, pushing 1024 pixels after every read. */
  method ReadPlanesChunked(raw: seq<Byte>) returns (planes: Planes)
    ensures planes == ChunkRead(raw, InitialReadBuf())
  {
    var readBuf := new Byte[CHUNK_BYTES](_ => 0);
    assert readBuf[..] == InitialReadBuf();
    planes := Planes([], [], []);
    var pos := 0;
    assert raw[pos..] == raw;
    assert planes.Append(ChunkRead(raw, InitialReadBuf())) == ChunkRead(raw, InitialReadBuf());
    while pos < |raw|
      invariant 0 <= pos <= |raw|
      invariant planes.Append(ChunkRead(raw[pos..], readBuf[..])) == ChunkRead(raw, InitialReadBuf())
      decreases |raw| - pos
    {
      ghost var prev := readBuf[..];
      var len := FillReadBuf(readBuf, raw, pos);
      ChunkReadStep(raw[pos..], prev, len);
      assert raw[pos..][len..] == raw[pos + len..];
      ghost var chunk, rest := Deinterleave(readBuf[..], CHUNK_PIXELS), ChunkRead(raw[pos + len..], readBuf[..]);
      AppendAssoc(planes, chunk, rest);
      planes := PushPixels(readBuf, planes);
      pos := pos + len;
    }
    assert raw[pos..] == [];
  }

  // ---------------------------------------------------------------------
  // Compression consumer (colCompress)
  // ---------------------------------------------------------------------

  /** `<c_path>/col_frame_<n>.dat`, the raw frame a queue entry names. */
  function RawPath(cpath: string, n: int): Path {
    Path(cpath, FileName("col_frame_", n, ".dat"))
  }

  /** The JPEG compressing a raw frame gives: the chunk-read planes viewed at
      the stream's geometry. */
  function CompressedJpeg(hres: bool, raw: seq<Byte>): File {
    JpegFile(ColourView(hres, ChunkRead(raw, InitialReadBuf())), JPEG_QUALITY)
  }

  /** One queue entry: skip it if its raw file cannot be opened; otherwise
      write the JPEG, then remove the raw file if `fclose` returned 0. */
  function ProcessFiles(files: map<Path, File>, st: Settings, n: int, closeResult: int): map<Path, File> {
    if RawPath(st.cpath, n) in files && files[RawPath(st.cpath, n)].RawFile? then
      if closeResult == 0 then
        files[ColourMoviePath(st.cpath, n) := CompressedJpeg(st.hres, files[RawPath(st.cpath, n)].bytes)] - {RawPath(st.cpath, n)}
      else files[ColourMoviePath(st.cpath, n) := CompressedJpeg(st.hres, files[RawPath(st.cpath, n)].bytes)]
    else files
  }

  /** The entries in `order`, one after the other. */
  function CompressFiles(files: map<Path, File>, st: Settings, order: seq<int>, closeResult: int -> int): map<Path, File>
    decreases |order|
  {
    if order == [] then files else CompressFiles(ProcessFiles(files, st, order[0], closeResult(order[0])), st, order[1..], closeResult)
  }

  /** A raw frame and a JPEG never share a name, and different numbers give
      different names. */
  lemma CompressPathsDistinct(cpath: string, n: int, m: int)
    ensures RawPath(cpath, n) != ColourMoviePath(cpath, m)
    ensures n != m ==> RawPath(cpath, n) != RawPath(cpath, m) && ColourMoviePath(cpath, n) != ColourMoviePath(cpath, m)
  {
    var a, b := RawPath(cpath, n).name, ColourMoviePath(cpath, m).name;
    assert a[|a| - 1] == 't' && b[|b| - 1] == 'g';
    FileNameInjective("col_frame_", ".dat", n, m);
    FileNameInjective("col_frame_", ".jpg", n, m);
  }

  /** The raw file is removed only after its JPEG was written, and only when
      the close succeeded; an entry without a raw file changes nothing; no
      other file is touched. A raw frame of the stream's full size compresses
      to the same JPEG `colorFrame` writes directly. */
  lemma ProcessFilesRules(files: map<Path, File>, st: Settings, n: int, closeResult: int)
    ensures var raw, out, r := RawPath(st.cpath, n), ColourMoviePath(st.cpath, n), ProcessFiles(files, st, n, closeResult);
      && (!(raw in files && files[raw].RawFile?) ==> r == files)
      && (raw in files && files[raw].RawFile? ==>
            && out in r && r[out] == CompressedJpeg(st.hres, files[raw].bytes)
            && (raw in r <==> closeResult != 0))
      && (forall p :: p != raw && p != out ==> (p in r <==> p in files) && (p in r ==> r[p] == files[p]))
    ensures var raw := RawPath(st.cpath, n);
      raw in files && files[raw].RawFile? && |files[raw].bytes| == 3 * ColArraySize(st.hres) ==>
        CompressedJpeg(st.hres, files[raw].bytes) == ColourJpeg(ColWidth(st.hres), ColHeight(st.hres), files[raw].bytes)
  {
    CompressPathsDistinct(st.cpath, n, n);
    var raw := RawPath(st.cpath, n);
    if raw in files && files[raw].RawFile? && |files[raw].bytes| == 3 * ColArraySize(st.hres) {
      var bytes := files[raw].bytes;
      if st.hres {
        ChunkReadWhole(bytes, InitialReadBuf(), 2025);
      } else {
        ChunkReadWhole(bytes, InitialReadBuf(), 300);
      }
    }
  }

  /** With every queued number distinct and its raw file present, draining
      the whole queue in order leaves, for every entry, the JPEG of that
      entry's own raw bytes, and keeps the raw file exactly when its close
      failed. */
  lemma {:induction false} CompressAllWritten(files: map<Path, File>, st: Settings, order: seq<int>, closeResult: int -> int)
    requires forall i, j :: 0 <= i < j < |order| ==> order[i] != order[j]
    requires forall i :: 0 <= i < |order| ==> RawPath(st.cpath, order[i]) in files && files[RawPath(st.cpath, order[i])].RawFile?
    ensures forall i :: 0 <= i < |order| ==>
      var out, r := ColourMoviePath(st.cpath, order[i]), CompressFiles(files, st, order, closeResult);
      out in r && r[out] == CompressedJpeg(st.hres, files[RawPath(st.cpath, order[i])].bytes)
    ensures forall i :: 0 <= i < |order| ==>
      (RawPath(st.cpath, order[i]) in CompressFiles(files, st, order, closeResult) <==> closeResult(order[i]) != 0)
    decreases |order|
  {
    if order != [] {
      var n := order[0];
      var next := ProcessFiles(files, st, n, closeResult(n));
      var rest := order[1..];
      var r := CompressFiles(files, st, order, closeResult);
      assert r == CompressFiles(next, st, rest, closeResult);
      ProcessFilesRules(files, st, n, closeResult(n));
      forall i | 0 <= i < |rest|
        ensures RawPath(st.cpath, rest[i]) in next && next[RawPath(st.cpath, rest[i])] == files[RawPath(st.cpath, rest[i])]
      {
        assert rest[i] == order[i + 1];
        CompressPathsDistinct(st.cpath, rest[i], n);
        CompressPathsDistinct(st.cpath, n, rest[i]);
      }
      assert forall i, j :: 0 <= i < j < |rest| ==> rest[i] != rest[j] by {
        forall i, j | 0 <= i < j < |rest| ensures rest[i] != rest[j] {
          assert rest[i] == order[i + 1] && rest[j] == order[j + 1];
        }
      }
      CompressAllWritten(next, st, rest, closeResult);
      forall i | 0 <= i < |rest| ensures rest[i] != n {
        assert rest[i] == order[i + 1];
      }
      CompressKeepsJpeg(next, st, rest, closeResult, n);
      forall i | 0 <= i < |rest|
        ensures RawPath(st.cpath, n) != RawPath(st.cpath, rest[i]) && RawPath(st.cpath, n) != ColourMoviePath(st.cpath, rest[i])
      {
        CompressPathsDistinct(st.cpath, n, rest[i]);
      }
      CompressLeavesOthers(next, st, rest, closeResult, RawPath(st.cpath, n));
      forall i | 0 <= i < |order|
        ensures var out := ColourMoviePath(st.cpath, order[i]);
          out in r && r[out] == CompressedJpeg(st.hres, files[RawPath(st.cpath, order[i])].bytes)
        ensures RawPath(st.cpath, order[i]) in r <==> closeResult(order[i]) != 0
      {
        if i > 0 {
          assert order[i] == rest[i - 1];
        }
      }
    }
  }

  /** Compressing the entries in `order` leaves every file that is neither
      the raw frame nor the JPEG of one of those entries exactly as it was. */
  lemma {:induction false} CompressLeavesOthers(files: map<Path, File>, st: Settings, order: seq<int>, closeResult: int -> int, p: Path)
    requires forall i :: 0 <= i < |order| ==> p != RawPath(st.cpath, order[i]) && p != ColourMoviePath(st.cpath, order[i])
    ensures var r := CompressFiles(files, st, order, closeResult);
      (p in r <==> p in files) && (p in r ==> r[p] == files[p])
    decreases |order|
  {
    if order != [] {
      ProcessFilesRules(files, st, order[0], closeResult(order[0]));
      forall i | 0 <= i < |order[1..]|
        ensures p != RawPath(st.cpath, order[1..][i]) && p != ColourMoviePath(st.cpath, order[1..][i])
      {
        assert order[1..][i] == order[i + 1];
      }
      CompressLeavesOthers(ProcessFiles(files, st, order[0], closeResult(order[0])), st, order[1..], closeResult, p);
    }
  }

  /** A JPEG already written is never removed or turned back into raw bytes
      by compressing the queue, and when its own number is not queued it is
      left exactly as it was. */
  lemma {:induction false} CompressKeepsJpeg(files: map<Path, File>, st: Settings, order: seq<int>, closeResult: int -> int, n: int)
    requires ColourMoviePath(st.cpath, n) in files && files[ColourMoviePath(st.cpath, n)].JpegFile?
    ensures ColourMoviePath(st.cpath, n) in CompressFiles(files, st, order, closeResult)
    ensures CompressFiles(files, st, order, closeResult)[ColourMoviePath(st.cpath, n)].JpegFile?
    ensures n !in order ==>
      CompressFiles(files, st, order, closeResult)[ColourMoviePath(st.cpath, n)] == files[ColourMoviePath(st.cpath, n)]
    decreases |order|
  {
    if order != [] {
      var m := order[0];
      ProcessFilesRules(files, st, m, closeResult(m));
      CompressPathsDistinct(st.cpath, m, n);
      CompressKeepsJpeg(ProcessFiles(files, st, m, closeResult(m)), st, order[1..], closeResult, n);
      if n !in order {
        assert n !in order[1..];
      }
    }
  }

  /** The entries the consumer as written compresses once recording has
      stopped: the pop in the loop condition takes one entry, the pop in the
      inner loop immediately replaces it with the next, so only every second
      entry (and a lone last one) is compressed. */
  function DrainOrderAsWritten(q: seq<int>): seq<int>
    decreases |q|
  {
    if |q| == 0 then []
    else if |q| == 1 then [q[0]]
    else [q[1]] + DrainOrderAsWritten(q[2..])
  }

  /** Of two queued entries only the second is compressed; in general the
      as-written drain keeps the odd-indexed entries and drops half the
      queue. */
  lemma {:induction false} DoublePopSkips(q: seq<int>)
    ensures |q| == 2 ==> DrainOrderAsWritten(q) == [q[1]]
    ensures |DrainOrderAsWritten(q)| == (|q| + 1) / 2
    ensures forall i :: 0 <= i < |q| / 2 ==> DrainOrderAsWritten(q)[i] == q[2 * i + 1]
    decreases |q|
  {
    if |q| >= 2 {
      DoublePopSkips(q[2..]);
      var d := DrainOrderAsWritten(q);
      forall i | 0 <= i < |q| / 2
        ensures d[i] == q[2 * i + 1]
      {
        if i > 0 {
          assert d[i] == DrainOrderAsWritten(q[2..])[i - 1];
          assert q[2..][2 * (i - 1) + 1] == q[2 * i + 1];
        }
      }
    }
  }

  /** Two entries 5 and 6 queued when recording stops: frame 5 is never
      compressed by the consumer as written, and is by the corrected one. */
  lemma DoublePopCounterexample()
    ensures DrainOrderAsWritten([5, 6]) == [6]
    ensures 5 !in DrainOrderAsWritten([5, 6])
  {
    DoublePopSkips([5, 6]);
  }

  // ---------------------------------------------------------------------
  // The recorder
  // ---------------------------------------------------------------------

  class Recorder {
    const disk: Disk
    const settings: Settings
    var movFlag: bv8
    var loopFlag: bool
    var calibCol: int
    var calibDepth: int
    var calibIR: int
    var cIncr: int
    var dIncr: int
    var cnum: int
    var dnum: int
    var timestamps: seq<int>

    function Ctl(): Controller
      reads this
    {
      Controller(movFlag, loopFlag, calibCol, calibDepth, calibIR)
    }

    function Loop(): LoopState
      reads this
    {
      LoopState(cIncr, dIncr, cnum, dnum, timestamps)
    }

    predicate Valid()
      reads this
    {
      |timestamps| <= QUEUE_CAPACITY
    }

    /** Start-up: flag clear, counters 0, gates 0, frame numbers 1000000,
        both intervals `1000 / fps`, empty queue. */
    constructor (d: Disk, fps: int, hres: bool, cpath: string, dpath: string)
      requires fps >= 1
      ensures disk == d && settings == Settings(fps, Interval(fps), Interval(fps), hres, cpath, dpath)
      ensures Ctl() == Controller(0, false, 0, 0, 0)
      ensures Loop() == LoopState(0, 0, FIRST_FRAME_NUM, FIRST_FRAME_NUM, [])
      ensures Valid()
    {
      disk := d;
      settings := Settings(fps, Interval(fps), Interval(fps), hres, cpath, dpath);
      movFlag := 0;
      loopFlag := false;
      calibCol := 0;
      calibDepth := 0;
      calibIR := 0;
      cIncr := 0;
      dIncr := 0;
      cnum := FIRST_FRAME_NUM;
      dnum := FIRST_FRAME_NUM;
      timestamps := [];
    }

    /** `saveColIm`: de-interleave the colour frame and write
        `ColSnap_<calib_col_num>.jpg`, then count it. */
    method SaveColIm(fs: FrameSet)
      requires fs.Complete(settings.hres)
      modifies this`calibCol, disk
      ensures calibCol == old(calibCol) + 1
      ensures disk.files == old(disk.files)[SnapshotSave(settings, Colour, old(calibCol), fs).path :=
                                             SnapshotSave(settings, Colour, old(calibCol), fs).file]
    {
      var arraysize := ColArraySize(settings.hres);
      var cFile := FileName("ColSnap_", calibCol, ".jpg");
      var planes := DeinterleaveLoop(fs.colour, arraysize);
      disk.WriteJpeg(Path(settings.cpath, cFile), ColourView(settings.hres, planes), JPEG_QUALITY);
      calibCol := calibCol + 1;
    }

    /** `saveDepthIm`: write 614400 bytes to `DepthSnap_<calib_depth_num>.dat`. */
    method SaveDepthIm(fs: FrameSet)
      requires fs.Complete(settings.hres)
      modifies this`calibDepth, disk
      ensures calibDepth == old(calibDepth) + 1
      ensures disk.files == old(disk.files)[SnapshotSave(settings, Depth, old(calibDepth), fs).path :=
                                             SnapshotSave(settings, Depth, old(calibDepth), fs).file]
    {
      var dFile := FileName("DepthSnap_", calibDepth, ".dat");
      var arraysize := DEPTH_BYTES;
      disk.WriteRaw(Path(settings.dpath, dFile), fs.depth[..arraysize]);
      calibDepth := calibDepth + 1;
    }

    /** `saveIRIm`: write 307200 bytes to `IRSnap_<calib_IR_num>.dat`. */
    method SaveIRIm(fs: FrameSet)
      requires fs.Complete(settings.hres)
      modifies this`calibIR, disk
      ensures calibIR == old(calibIR) + 1
      ensures disk.files == old(disk.files)[SnapshotSave(settings, Infrared, old(calibIR), fs).path :=
                                             SnapshotSave(settings, Infrared, old(calibIR), fs).file]
    {
      var irFile := FileName("IRSnap_", calibIR, ".dat");
      var arraysize := IR_BYTES;
      disk.WriteRaw(Path(settings.dpath, irFile), fs.ir[..arraysize]);
      calibIR := calibIR + 1;
    }

    /** `depthFrame`: write 614400 bytes to `depth_frame_<framenum>.dat`. */
    method DepthFrame(dpoint: seq<Byte>, framenum: int)
      requires DEPTH_BYTES <= |dpoint|
      modifies disk
      ensures disk.files == old(disk.files)[DepthMoviePath(settings.dpath, framenum) := RawFile(dpoint[..DEPTH_BYTES])]
    {
      var arraysize := DEPTH_BYTES;
      disk.WriteRaw(DepthMoviePath(settings.dpath, framenum), dpoint[..arraysize]);
    }

    /** `colorFrame`: de-interleave and write `col_frame_<framenum>.jpg`. */
    method ColorFrame(cpoint: seq<Byte>, framenum: int)
      requires 3 * ColArraySize(settings.hres) <= |cpoint|
      modifies disk
      ensures disk.files == old(disk.files)[ColourMoviePath(settings.cpath, framenum) :=
                                             ColourJpeg(ColWidth(settings.hres), ColHeight(settings.hres), cpoint)]
    {
      var arraysize := ColArraySize(settings.hres);
      var planes := DeinterleaveLoop(cpoint, arraysize);
      disk.WriteJpeg(ColourMoviePath(settings.cpath, framenum), ColourView(settings.hres, planes), JPEG_QUALITY);
    }

    /** Key A: the three savers, run one after the other. */
    method SnapshotAll(fs: FrameSet)
      requires fs.Complete(settings.hres) && !Recording(movFlag)
      modifies this`calibCol, this`calibDepth, this`calibIR, disk
      ensures Ctl() == OnKey(old(Ctl()), KeyA, Press)
      ensures disk.files == Apply(old(disk.files), KeySaves(old(Ctl()), KeyA, Press, settings, fs))
    {
      ghost var c0, files0 := Ctl(), disk.files;
      ghost var saves := KeySaves(c0, KeyA, Press, settings, fs);
      assert saves == [SnapshotSave(settings, Colour, c0.calibCol, fs),
                       SnapshotSave(settings, Depth, c0.calibDepth, fs),
                       SnapshotSave(settings, Infrared, c0.calibIR, fs)];
      SaveColIm(fs);
      SaveDepthIm(fs);
      SaveIRIm(fs);
      ApplyThree(files0, saves[0], saves[1], saves[2]);
    }

    /** Keys 1, 2 and 3: one saver. */
    method SnapshotOne(key: Key, fs: FrameSet)
      requires fs.Complete(settings.hres) && !Recording(movFlag)
      requires key.Key1? || key.Key2? || key.Key3?
      modifies this`calibCol, this`calibDepth, this`calibIR, disk
      ensures Ctl() == OnKey(old(Ctl()), key, Press)
      ensures disk.files == Apply(old(disk.files), KeySaves(old(Ctl()), key, Press, settings, fs))
    {
      ghost var c0, files0 := Ctl(), disk.files;
      ghost var saves := KeySaves(c0, key, Press, settings, fs);
      assert saves[..0] == [] && saves[..1] == saves;
      match key
      case Key1 => SaveColIm(fs);
      case Key2 => SaveDepthIm(fs);
      case Key3 => SaveIRIm(fs);
      ApplyPrefix(files0, saves, 0);
    }

    /** `key_callback`. `fs` is what the savers read from the device and `o`
        what `get_option` reports; `cmd` is the option write made, if any. */
    method KeyCallback(key: Key, action: Action, fs: FrameSet, o: ColourOptions) returns (cmd: Option<OptionWrite>)
      requires fs.Complete(settings.hres)
      modifies this`movFlag, this`loopFlag, this`calibCol, this`calibDepth, this`calibIR, disk
      ensures Ctl() == OnKey(old(Ctl()), key, action)
      ensures cmd == KeyCommand(old(Ctl()), key, action, o)
      ensures disk.files == Apply(old(disk.files), KeySaves(old(Ctl()), key, action, settings, fs))
    {
      cmd := None;
      if action != Press {
        return;
      }
      match key
      case KeyA =>
        if !Recording(movFlag) {
          SnapshotAll(fs);
        }
      case Key1 =>
        if !Recording(movFlag) {
          SnapshotOne(key, fs);
        }
      case Key2 =>
        if !Recording(movFlag) {
          SnapshotOne(key, fs);
        }
      case Key3 =>
        if !Recording(movFlag) {
          SnapshotOne(key, fs);
        }
      case KeyM =>
        movFlag := StartAll(movFlag);
        if Recording(movFlag) {
          loopFlag := true;
        }
      case KeyC =>
        movFlag := Toggle(movFlag, COL_MOV);
      case KeyD =>
        movFlag := Toggle(movFlag, DEP_MOV);
      case KeyP =>
        if !Recording(movFlag) {
          cmd := Some(ExposureCommand(o));
        }
      case KeyS =>
        cmd := Some(SharpnessCommand(o));
      case KeyF =>
        cmd := Some(WhiteBalanceCommand(o));
      case KeyE =>
        movFlag := STOPPED;
      case _ =>
    }

    /** `timestampList.push`. */
    method Push(x: int) returns (pushed: bool)
      requires Valid()
      modifies this`timestamps
      ensures Valid()
      ensures timestamps == QueuePush(old(timestamps), x)
      ensures pushed <==> |old(timestamps)| < QUEUE_CAPACITY
    {
      pushed := |timestamps| < QUEUE_CAPACITY;
      if pushed {
        timestamps := timestamps + [x];
      }
    }

    /** `timestampList.pop`: the oldest entry, if any. */
    method Pop() returns (popped: bool, x: int)
      requires Valid()
      modifies this`timestamps
      ensures Valid()
      ensures popped <==> old(timestamps) != []
      ensures popped ==> x == old(timestamps)[0] && timestamps == old(timestamps)[1..]
      ensures !popped ==> timestamps == old(timestamps)
    {
      popped := timestamps != [];
      x := 0;
      if popped {
        x := timestamps[0];
        timestamps := timestamps[1..];
      }
    }

    /** One iteration of the main loop, after the key events it polled. */
    method Tick(t: Tick)
      requires Valid() && t.frames.Complete(settings.hres)
      modifies this`cIncr, this`dIncr, this`cnum, this`dnum, this`timestamps, disk
      ensures Valid()
      ensures Loop() == Step(movFlag, settings, old(Loop()), t.stamp)
      ensures disk.files == Apply(old(disk.files), TickSaves(movFlag, settings, old(Loop()), t))
    {
      ghost var files0 := disk.files;
      ghost var saves := TickSaves(movFlag, settings, Loop(), t);
      var cstamp, dstamp := t.stamp, t.stamp;
      if Recording(movFlag) {
        if settings.fps < FRAMERATE_LIM {
          if cstamp - cIncr >= settings.cInterval {
            ColorFrame(t.frames.colour, cnum);
            DepthFrame(t.frames.depth, dnum);
            ApplyTwo(files0, saves[0], saves[1]);
            dIncr := dstamp;
            dnum := dnum + 1;
            cIncr := cstamp;
            cnum := cnum + 1;
          }
        } else {
          ColorFrame(t.frames.colour, cnum);
          DepthFrame(t.frames.depth, dnum);
          ApplyTwo(files0, saves[0], saves[1]);
          var pushed := Push(cstamp);
          cnum := cnum + 1;
          dnum := dnum + 1;
        }
      } else if HasBit(movFlag, DEP_MOV) {
        if dstamp - dIncr >= settings.dInterval {
          DepthFrame(t.frames.depth, dstamp);
          ApplyPrefix(files0, saves, 0);
          assert saves[..1] == saves;
          dIncr := dstamp;
          dnum := dnum + 1;
        }
      }
    }

    /** The main loop over a run of ticks with no key pressed in between. */
    method RecordTicks(ticks: seq<Tick>)
      requires Valid() && AllComplete(settings.hres, ticks)
      modifies this`cIncr, this`dIncr, this`cnum, this`dnum, this`timestamps, disk
      ensures Valid()
      ensures Loop() == RunState(movFlag, settings, old(Loop()), Stamps(ticks))
      ensures disk.files == Apply(old(disk.files), RunSaves(movFlag, settings, old(Loop()), ticks))
    {
      ghost var s0, files0 := Loop(), disk.files;
      var i := 0;
      assert ticks[..0] == [];
      while i < |ticks|
        invariant 0 <= i <= |ticks|
        invariant Valid()
        invariant AllComplete(settings.hres, ticks[..i])
        invariant Loop() == RunState(movFlag, settings, s0, Stamps(ticks[..i]))
        invariant disk.files == Apply(files0, RunSaves(movFlag, settings, s0, ticks[..i]))
      {
        ghost var sBefore := Loop();
        Tick(ticks[i]);
        RunSnoc(movFlag, settings, s0, ticks[..i], ticks[i]);
        assert ticks[..i + 1] == ticks[..i] + [ticks[i]];
        ApplyAppend(files0, RunSaves(movFlag, settings, s0, ticks[..i]), TickSaves(movFlag, settings, sBefore, ticks[i]));
        i := i + 1;
      }
      assert ticks[..i] == ticks;
    }

    /** The body of the consumer loop for one entry: open the raw file,
        read it chunk by chunk, write the JPEG, close, and remove the raw
        file when the close returned 0. `closeResult` is what `fclose`
        returns. */
    method ProcessEntry(filenum: int, closeResult: int)
      modifies disk
      ensures disk.files == ProcessFiles(old(disk.files), settings, filenum, closeResult)
    {
      var cPath := RawPath(settings.cpath, filenum);
      var outPath := ColourMoviePath(settings.cpath, filenum);
      var isOpen := cPath in disk.files && disk.files[cPath].RawFile?;
      if isOpen {
        var planes := ReadPlanesChunked(disk.files[cPath].bytes);
        var closeSuccess := closeResult;
        disk.WriteJpeg(outPath, ColourView(settings.hres, planes), JPEG_QUALITY);
        CompressPathsDistinct(settings.cpath, filenum, filenum);
        if closeSuccess == 0 {
          disk.Remove(cPath);
        }
      }
    }

    /** One pass of the consumer loop while recording: the loop condition
        holds without popping, and the inner loop pops the oldest entry. */
    method CompressWhileRecording(closeResult: int -> int)
      requires Valid() && Recording(movFlag) && timestamps != []
      modifies this`timestamps, disk
      ensures Valid()
      ensures timestamps == old(timestamps)[1..]
      ensures disk.files == ProcessFiles(old(disk.files), settings, old(timestamps)[0], closeResult(old(timestamps)[0]))
    {
      var popped, filenum := Pop();
      ProcessEntry(filenum, closeResult(filenum));
    }

    /** `colCompress` as written, once bit 0x01 is clear: the loop condition
        pops an entry and the inner loop pops again before the entry is
        used. */
    method ColCompressAsWritten(closeResult: int -> int)
      requires Valid() && !Recording(movFlag)
      modifies this`timestamps, disk
      ensures Valid() && timestamps == []
      ensures disk.files == CompressFiles(old(disk.files), settings, DrainOrderAsWritten(old(timestamps)), closeResult)
    {
      ghost var goal := CompressFiles(disk.files, settings, DrainOrderAsWritten(timestamps), closeResult);
      while true
        invariant Valid()
        invariant CompressFiles(disk.files, settings, DrainOrderAsWritten(timestamps), closeResult) == goal
        decreases |timestamps|
      {
        ghost var q := timestamps;
        var popped, filenum := Pop();
        if !popped {
          break;
        }
        var again, next := Pop();
        if again {
          filenum := next;
        }
        assert DrainOrderAsWritten(q) == [filenum] + DrainOrderAsWritten(timestamps) by {
          if |q| >= 2 { assert q[2..] == timestamps; }
        }
        ProcessEntry(filenum, closeResult(filenum));
      }
    }

    /** `colCompress` with one pop per entry: once bit 0x01 is clear it
        compresses every queued entry, oldest first. */
    method ColCompress(closeResult: int -> int)
      requires Valid() && !Recording(movFlag)
      modifies this`timestamps, disk
      ensures Valid() && timestamps == []
      ensures disk.files == CompressFiles(old(disk.files), settings, old(timestamps), closeResult)
    {
      ghost var goal := CompressFiles(disk.files, settings, timestamps, closeResult);
      while true
        invariant Valid()
        invariant CompressFiles(disk.files, settings, timestamps, closeResult) == goal
        decreases |timestamps|
      {
        var popped, filenum := Pop();
        if !popped {
          break;
        }
        ProcessEntry(filenum, closeResult(filenum));
      }
    }
  }
}
