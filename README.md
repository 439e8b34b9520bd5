# TermiteScan recorder model

TermiteScan records synchronised colour, depth and infrared frames from an
Intel RealSense camera for termite-mound scanning. This project models its
core in Dafny:

- three programs:
  - the librealsense1 recorder `TermiteScan.cpp`;
  - the librealsense2 recorder `TermiteScan-dev/TermiteScan.cpp`;
  - the infrared test recorder `irFramesTest.cpp`;
- the stream-writer classes (`colImageFrame`, `depthImageFrame`,
  `irImageFrame`) that those programs use.

Modules:

- `Files`: the part of the file system the programs touch. A `Disk` object
  holds a map from `dir / name` paths to files. A file holds raw bytes or a
  JPEG, kept as the view and quality it was encoded from. Also here:
  `std::to_string` with its read-back, the `<prefix><n><suffix>` file names,
  and `Apply`, which performs a list of writes in order. `Slots` says that
  the k-th recorded tick of a movie run writes colour frame `cn + k`, then
  depth frame `dn + k`.
- `Pixels`: packed RGB to planar RGB (`Deinterleave`) and its inverse. The
  de-interleave loop of the colour writers is a method over three arrays.
- `Controls`: the keys and the 8-bit recording flag `g_movflag`. Bit 0x01
  records all streams; bits 0x02 and 0x04 are the colour and depth toggles.
- `RateGate`: the per-tick gate `cstamp - c_incr >= c_interval` shared by
  the three main loops, with lemmas about whole runs of ticks.
- `DevColImageFrame`, `DevDepthImageFrame`, `DevIrImageFrame`: the
  librealsense2 writer classes. `DepthImageFrame` and `IrImageFrame`: the
  older librealsense1 ones. Each is a class with the source's `width` and
  `height` fields and its save overloads as methods on a `Disk`.
- `TermiteScan`: a `Recorder` class holding:
  - `g_movflag` and `loopflag`;
  - the three static calibration counters;
  - the loop variables `c_incr`, `d_incr`, `cnum`, `dnum`;
  - the `timestampList` queue.

  Its methods are the three snapshot savers, the two movie writers,
  `key_callback`, one main-loop iteration, a run of iterations, and the
  compression consumer `colCompress`: its chunked read, JPEG write and raw
  file removal.
- `TermiteScanDev`: the librealsense2 recorder. The snapshot key shares one
  `calib_num`, and the main loop records colour and depth together.
- `IrFramesTest`: the infrared test recorder, with:
  - the four-file snapshot, which is not refused while recording;
  - the emitter and alignment toggles;
  - an always-gated movie recorder;
  - the 10 x 10 grid of aligned distance samples, gathered per frame and
    dumped newest first at exit.

Every state-changing method states its new state as a pure function of the
old state: `Ctl() == OnKey(old(Ctl()), ...)`, `Loop() == Step(...)`, and
`disk.files == Apply(old(disk.files), saves)`. The lemmas then prove the
promised properties about those functions.

The gate's initial value `c_incr` is 0, and a tick is admitted when
`cstamp - c_incr >= c_interval`. So at 10 fps the tick stamped 0 ms is not
recorded; of the ticks 0, 33, ..., 200, only 100 and 200 are saved
(`RateGate.ScenarioTenFps`).

## Model

| member | source | states |
|---|---|---|
| Controls.StartAllProperties | TermiteScan.cpp:379-391 | M sets bit 0x01, keeps every other bit, and is idempotent |
| Controls.ToggleProperties | TermiteScan.cpp:407-424 | C and D flip exactly their own bit (0x02 or 0x04), leave recording unchanged, and are self-inverse |
| Controls.StopProperties | TermiteScan.cpp:494-499 | E leaves no bit set |
| RateGate.Interval | TermiteScan.cpp:601-602 | the interval is the largest `i` with `fps * i <= 1000`, i.e. `1000 / fps` rounded down |
| RateGate.AdmittedSpacing | TermiteScan-dev/TermiteScan.cpp:417-430 | the first admitted tick is at least one interval past the initial gate value, and consecutive admitted ticks are at least one interval apart |
| RateGate.AdmittedItems | TermiteScan-dev/TermiteScan.cpp:417-430 | the items kept alongside a run of stamps are exactly as many as the admitted stamps |
| RateGate.AdmittedAreTicks | TermiteScan-dev/TermiteScan.cpp:417-430 | only offered ticks are admitted, and never more than were offered |
| RateGate.GateAfterIsLastAdmitted | TermiteScan-dev/TermiteScan.cpp:417-430 | after a run, `c_incr` holds the last admitted stamp, or its old value if none was admitted |
| RateGate.FirstAdmission | TermiteScan-dev/TermiteScan.cpp:270-271 | with `c_incr` starting at 0, the first admitted tick is the first whose stamp reaches `c_interval` |
| RateGate.NoAdmission | TermiteScan-dev/TermiteScan.cpp:417-430 | no tick below `c_interval` is admitted from a gate at 0 |
| RateGate.ScenarioTenFps | TermiteScan.cpp:640-659 | at 10 fps on a 30 fps source, of the stamps 0..200 only 100 and 200 are recorded |
| Files.Disk.WriteRaw | TermiteScan.cpp:132-137 | a binary write replaces the file at the path with exactly the given bytes; no other file changes |
| Files.Disk.WriteJpeg | TermiteScan.cpp:109-111 | `jpeg_write_view` replaces the file at the path with the encoding of the view at the given quality |
| Files.Disk.Remove | TermiteScan.cpp:301-306 | `bfs::remove` deletes just that path; a missing file is left missing |
| Files.NatToStringRoundTrip | TermiteScan.cpp:194 | the decimal digits `std::to_string` writes for a natural number read back to that number |
| Files.IntToStringRoundTrip | TermiteScan.cpp:194 | every frame number, negative ones included, reads back from its rendering |
| Files.FileNameInjective | TermiteScan.cpp:90 | two numbers give the same `<prefix><n><suffix>` name only if they are equal |
| Files.ColourNotDepth | TermiteScan.cpp:171-195 | a `col_frame_` file is never a `depth_frame_` file |
| Files.ColourMoviePathInjective | TermiteScan.cpp:194-195 | different frame numbers give different colour movie files |
| Files.DepthMoviePathInjective | TermiteScan.cpp:171-172 | different frame numbers give different depth movie files |
| Files.MoviePathsDistinct | TermiteScan.cpp:169-215 | colour and depth movie files never collide, and each stream's names are injective in the frame number |
| Pixels.InterleaveDeinterleave | TermiteScan.cpp:99-104 | splitting a packed buffer into planes loses nothing: packing the planes again gives the buffer back |
| Pixels.DeinterleaveInterleave | TermiteScan.cpp:99-104 | de-interleaving packed planes gives the planes back |
| Pixels.DeinterleaveAppend | TermiteScan.cpp:275-283 | de-interleaving a buffer split at a pixel boundary is de-interleaving the parts and appending the planes |
| Pixels.DeinterleaveLoop | TermiteScan.cpp:93-104 | for every `j < arraysize`, R[j], G[j] and B[j] are bytes 3j, 3j+1 and 3j+2, and the planes have `arraysize` entries each |
| DevColImageFrame.ColImageFrame.constructor | TermiteScan-dev/colimageframe.cpp:23-27 | width and height are stored unchanged |
| DevColImageFrame.ColImageFrame.SaveSnapshot | TermiteScan-dev/colimageframe.cpp:31-62 | writes `c_path / c_file` verbatim; the file is the quality-95 JPEG of the width x height planar view, and only the first `3 * width * height` input bytes matter |
| DevColImageFrame.ColImageFrame.SaveMovie | TermiteScan-dev/colimageframe.cpp:65-93 | writes the same JPEG to `c_path / col_frame_<n>.jpg` |
| DevDepthImageFrame.DepthImageFrame.constructor | TermiteScan-dev/depthimageframe.cpp:14-18 | width and height are stored unchanged |
| DevDepthImageFrame.DepthImageFrame.SaveSnapshot | TermiteScan-dev/depthimageframe.cpp:22-48 | warns iff `width * height * 2 < 614400`, and writes exactly that many leading bytes to `d_path / d_file` whether or not it warned |
| DevDepthImageFrame.DepthImageFrame.SaveMovie | TermiteScan-dev/depthimageframe.cpp:51-68 | writes `width * height * 2` leading bytes to `d_path / depth_frame_<n>.dat`, with no check |
| DevIrImageFrame.IrImageFrame.constructor | TermiteScan-dev/irimageframe.cpp:14-18 | width and height are stored unchanged |
| DevIrImageFrame.IrImageFrame.SaveSnapshot | TermiteScan-dev/irimageframe.cpp:23-43 | warns iff `width * height < 307200`, and still writes exactly that many leading bytes to `ir_path / ir_file` |
| DevIrImageFrame.IrImageFrame.SaveMovie | TermiteScan-dev/irimageframe.cpp:46-64 | writes `width * height` leading bytes to `ir_path / ir_frame_<n>.dat`, with no check |
| DepthImageFrame.DepthImageFrame.constructor | depthimageframe.cpp:13-17 | width and height are stored unchanged |
| DepthImageFrame.DepthImageFrame.SaveSnapshot | depthimageframe.cpp:21-38 | writes exactly `width * height * 2` leading bytes of the device's depth frame to `d_path / d_file` |
| DepthImageFrame.DepthImageFrame.SaveMovie | depthimageframe.cpp:41-58 | writes exactly `width * height * 2` leading bytes of the buffer to `d_path / depth_frame_<n>.dat` |
| IrImageFrame.IrImageFrame.constructor | irimageframe.cpp:12-16 | width and height are stored unchanged |
| IrImageFrame.IrImageFrame.SaveSnapshot | irimageframe.cpp:21-37 | writes exactly `width * height` leading bytes of the device's infrared frame to `ir_path / ir_file`, name unaltered |
| TermiteScan.ColourViewCoversPlanes | TermiteScan.cpp:291-298 | the view sized by `hresflag` covers exactly the de-interleaved planes, in both geometries, and its JPEG is the colour JPEG of the packed frame |
| TermiteScan.ViewGeometryMismatch | TermiteScan.cpp:82-111 | with `hresflag` false, the view as written spans 2073600 pixels over planes of 307200, so it differs from the corrected view; with `hresflag` true the two agree |
| TermiteScan.SnapshotSavesDistinct | TermiteScan.cpp:78-163 | snapshot files of different streams, or of one stream with different counters, never share a path |
| TermiteScan.SnapshotRules | TermiteScan.cpp:337-377 | A, 1, 2 and 3 do nothing while bit 0x01 is set. Otherwise each started saver moves only its own counter, by exactly 1, and writes the file numbered by the counter's old value. The flag is untouched |
| TermiteScan.FlagRules | TermiteScan.cpp:379-499 | M sets bit 0x01 (other bits kept) and raises `loopflag`; C and D flip only their own bit; E clears the flag; no other key or action changes it |
| TermiteScan.ExposureCycle | TermiteScan.cpp:427-459 | from auto, P commands 40; on the ladder 40, 85, ..., 940 each press commands the next rung, and from 940 it hands back to auto |
| TermiteScan.SharpnessCycle | TermiteScan.cpp:461-473 | below 99, S adds 5; from 99 up it resets to 50; the ladder 50..100 is kept |
| TermiteScan.WhiteBalanceCycle | TermiteScan.cpp:475-492 | from auto, F commands 9000; above 2500 it steps down by 500; at 2500 it hands back to auto |
| TermiteScan.QueuePush | TermiteScan.cpp:69 | the queue grows by one entry iff it held fewer than 90000; the entries already queued keep their places, the new one goes to the back, and a queue within 90000 entries stays within it |
| TermiteScan.GatedRun | TermiteScan.cpp:640-659 | below 28 fps, both gates end on the last tick the colour gate admits, `cnum` and `dnum` advance by the number of admitted ticks, and nothing is queued |
| TermiteScan.GatedTicks | TermiteScan.cpp:640-659 | the ticks the colour gate keeps carry exactly the admitted stamps, in order |
| TermiteScan.GatedSaves | TermiteScan.cpp:640-659 | below 28 fps the files written are exactly `RecordedSaves` of the admitted ticks: each one's colour frame then its depth frame, in order; the k-th admitted tick's are named `col_frame_<cnum + k>.jpg` and `depth_frame_<dnum + k>.dat` |
| TermiteScan.RecordedSlots | TermiteScan.cpp:640-659 | the files of k recorded ticks hold 2k writes, and the k-th tick's colour and depth files are numbered `cn + k` and `dn + k` |
| TermiteScan.FullRateRun | TermiteScan.cpp:662-677 | at 28 fps or more every tick is recorded. Its stamp is queued while there is room, and both numbers advance by the number of ticks. The gates are untouched |
| TermiteScan.DepthOnlyRun | TermiteScan.cpp:682-702 | with bit 0x01 clear and 0x04 set, the depth gate alone decides; `dnum` advances by the admitted count; `cnum`, `c_incr` and the queue are untouched |
| TermiteScan.DepthOnlyPaths | TermiteScan.cpp:686-690 | on the depth-only branch, the i-th file written is `depth_frame_<stamp>.dat` for the i-th admitted stamp, not for `dnum` |
| TermiteScan.DepthOnlySaves | TermiteScan.cpp:686-693 | with a positive depth interval, the depth-only branch never writes the same file twice |
| TermiteScan.DisplayRun | TermiteScan.cpp:704-740 | with bits 0x01 and 0x04 clear, nothing changes and nothing is written |
| TermiteScan.ColourBitDisplays | TermiteScan.cpp:636-705 | the colour bit alone (0x02) takes the display branch: it neither records nor gates |
| TermiteScan.ChunkReadLength | TermiteScan.cpp:275-283 | every `fread` pushes 1024 pixels, even a short last one, so the planes hold 1024 pixels per read |
| TermiteScan.ChunkReadPixels | TermiteScan.cpp:275-283 | every complete pixel of the raw file lands in the planes at its own index |
| TermiteScan.ChunkReadWhole | TermiteScan.cpp:243-283 | when the raw file is a whole number of 3072-byte reads, the chunked planes equal the direct de-interleave |
| TermiteScan.FillReadBuf | TermiteScan.cpp:275 | one `fread` copies up to 3072 bytes to the front of `readBuf` and leaves the rest of the buffer as it was |
| TermiteScan.PushPixels | TermiteScan.cpp:277-282 | the inner loop appends the 1024 pixels of `readBuf` to the three plane vectors |
| TermiteScan.ReadPlanesChunked | TermiteScan.cpp:273-283 | the read loop builds exactly the chunked planes of the whole file |
| TermiteScan.CompressPathsDistinct | TermiteScan.cpp:248-254 | a raw `col_frame_<n>.dat` is never a JPEG name, and different numbers give different names |
| TermiteScan.ProcessFilesRules | TermiteScan.cpp:273-306 | an entry without a raw file changes nothing. Otherwise its JPEG is written, and the raw file is removed iff `fclose` returned 0. No other file is touched. A full-size raw frame compresses to the JPEG `colorFrame` writes directly |
| TermiteScan.CompressAllWritten | TermiteScan.cpp:232-308 | draining a queue of distinct entries whose raw files exist leaves, at each entry's `col_frame_<n>.jpg`, the JPEG of that entry's own raw bytes, and keeps `col_frame_<n>.dat` exactly when its `fclose` failed |
| TermiteScan.CompressLeavesOthers | TermiteScan.cpp:232-308 | draining the queue leaves every file that is neither the `.dat` nor the `.jpg` of a queued entry present or absent as before, with the same contents |
| TermiteScan.CompressKeepsJpeg | TermiteScan.cpp:232-308 | draining the queue never removes a JPEG already written or turns it into another kind of file; when its number is not queued, the JPEG is left unchanged |
| TermiteScan.DoublePopSkips | TermiteScan.cpp:232-241 | the consumer as written compresses only the odd-indexed queue entries, plus a lone last one |
| TermiteScan.DoublePopCounterexample | TermiteScan.cpp:232-241 | with entries 5 and 6 queued, frame 5 is never compressed |
| TermiteScan.Recorder.constructor | TermiteScan.cpp:594-602 | start-up state: flag clear, counters 0, gates 0, both frame numbers 1000000, intervals `1000 / fps`, empty queue |
| TermiteScan.Recorder.SaveColIm | TermiteScan.cpp:78-118 | writes `ColSnap_<calib_col_num>.jpg` from the de-interleaved frame, then increments `calib_col_num` |
| TermiteScan.Recorder.SaveDepthIm | TermiteScan.cpp:120-141 | writes the first 614400 depth bytes to `DepthSnap_<calib_depth_num>.dat`, then increments the counter |
| TermiteScan.Recorder.SaveIRIm | TermiteScan.cpp:143-163 | writes the first 307200 infrared bytes to `IRSnap_<calib_IR_num>.dat`, then increments the counter |
| TermiteScan.Recorder.DepthFrame | TermiteScan.cpp:169-182 | writes the first 614400 bytes to `depth_frame_<framenum>.dat` |
| TermiteScan.Recorder.ColorFrame | TermiteScan.cpp:184-215 | writes the colour JPEG of the frame to `col_frame_<framenum>.jpg` |
| TermiteScan.Recorder.SnapshotAll | TermiteScan.cpp:337-347 | the three savers run in turn: the controller and files end as the key rules say |
| TermiteScan.Recorder.SnapshotOne | TermiteScan.cpp:349-377 | keys 1, 2 and 3 run their one saver as the key rules say |
| TermiteScan.Recorder.KeyCallback | TermiteScan.cpp:317-501 | the new flag, `loopflag` and counters, the option write made and the files written are those of the key rules |
| TermiteScan.Recorder.Push | TermiteScan.cpp:672 | the queue becomes `QueuePush` of the old queue and stays within its 90000-entry capacity; the push succeeds iff the queue was not full |
| TermiteScan.Recorder.Pop | TermiteScan.cpp:236 | the pop succeeds iff the queue is non-empty, and then returns the oldest entry and removes it; the capacity bound is kept |
| TermiteScan.Recorder.Tick | TermiteScan.cpp:618-702 | one loop iteration moves the loop variables and queue by `Step`, keeps the queue within its capacity, and writes that tick's movie files |
| TermiteScan.Recorder.RecordTicks | TermiteScan.cpp:618-742 | a run of iterations ends in `RunState`, keeps the queue within its capacity, and writes `RunSaves`, in order |
| TermiteScan.Recorder.ProcessEntry | TermiteScan.cpp:243-307 | one consumer entry: open, chunked read, JPEG write, remove on a 0 close, as `ProcessFiles` says |
| TermiteScan.Recorder.CompressWhileRecording | TermiteScan.cpp:232-241 | while recording, one pass pops the oldest entry and compresses it |
| TermiteScan.Recorder.ColCompressAsWritten | TermiteScan.cpp:217-314 | once bit 0x01 is clear, the double-pop consumer empties the queue but compresses only `DrainOrderAsWritten` of it |
| TermiteScan.Recorder.ColCompress | TermiteScan.cpp:217-314 | with one pop per entry the consumer empties the queue and compresses every entry, oldest first |
| TermiteScanDev.KeyRules | TermiteScan-dev/TermiteScan.cpp:104-236 | only M and E change the flag: M sets bit 0x01 keeping the rest, E clears it. `calib_num` moves by 1 exactly for a press of A while not recording whose dispatch raised nothing. Nothing is written while recording. Any other key only shows help |
| TermiteScanDev.SnapshotNamesDistinct | TermiteScan-dev/TermiteScan.cpp:108-110 | the three files of one snapshot are distinct, and snapshots with different indices share no file |
| TermiteScanDev.GatedRun | TermiteScan-dev/TermiteScan.cpp:414-431 | below 28 fps, `c_incr` ends on the last admitted tick and both numbers advance by the number of admitted ticks |
| TermiteScanDev.GatedTicks | TermiteScan-dev/TermiteScan.cpp:414-431 | the ticks the gate keeps carry exactly the admitted stamps, in order |
| TermiteScanDev.GatedSaves | TermiteScan-dev/TermiteScan.cpp:414-431 | below 28 fps the files written are exactly `RecordedSaves` of the admitted ticks: each one's colour frame then its depth frame, in order; the k-th admitted tick's are named `col_frame_<cnum + k>.jpg` and `depth_frame_<dnum + k>.dat` |
| TermiteScanDev.RecordedSlots | TermiteScan-dev/TermiteScan.cpp:414-431 | the files of k recorded ticks hold 2k writes, and the k-th tick's colour and depth files are numbered `cn + k` and `dn + k` |
| TermiteScanDev.FullRateRun | TermiteScan-dev/TermiteScan.cpp:432-443 | at 28 fps or more every tick is recorded, both numbers advance by the tick count, and `c_incr` is untouched |
| TermiteScanDev.IdleRun | TermiteScan-dev/TermiteScan.cpp:446-469 | with bit 0x01 clear nothing changes and nothing is written |
| TermiteScanDev.NumbersInStep | TermiteScan-dev/TermiteScan.cpp:426-442 | `cnum` and `dnum` move together and never go back |
| TermiteScanDev.RunSavesDistinct | TermiteScan-dev/TermiteScan.cpp:420-438 | no file is written twice in a run: every recorded tick gets fresh colour and depth names |
| TermiteScanDev.StartSettings | TermiteScan-dev/TermiteScan.cpp:257-271 | the gate interval is 33 ms, that of the default 30 fps, whatever framerate is requested; only the `< 28` test sees the requested rate |
| TermiteScanDev.IntervalIgnoresRate | TermiteScan-dev/TermiteScan.cpp:270-298 | asking for 10 fps, of the ticks 0, 33, 66, 100 the program records 33, 66 and 100, where a 100 ms interval would record only 100 |
| TermiteScanDev.IntendedSpacing | TermiteScan-dev/TermiteScan.cpp:414-431 | with the interval of the requested rate, the first recorded tick is an interval past 0, consecutive recorded ticks are at least `1000 / fps` ms (rounded down) apart, and each gap plus 1 ms exceeds the requested frame period (`fps * (gap + 1) > 1000`) |
| TermiteScanDev.Recorder.constructor | TermiteScan-dev/TermiteScan.cpp:266-271 | start-up state: flag clear, `calib_num` 0, gate 0, both numbers 1000000, and the settings of `StartSettings` (33 ms interval) |
| TermiteScanDev.Recorder.TakeSnapshot | TermiteScan-dev/TermiteScan.cpp:105-151 | writes the colour, depth and infrared snapshot files in turn, cut short where an error is raised; `calib_num` moves only when all three were dispatched |
| TermiteScanDev.Recorder.KeyCallback | TermiteScan-dev/TermiteScan.cpp:72-237 | the new flag and index, whether help is shown, and the files written are those of the key rules |
| TermiteScanDev.Recorder.Tick | TermiteScan-dev/TermiteScan.cpp:390-471 | one loop iteration moves the loop variables by `Step` and writes that tick's colour and depth files |
| TermiteScanDev.Recorder.RecordTicks | TermiteScan-dev/TermiteScan.cpp:390-471 | a run of iterations ends in `RunState` and writes `RunSaves`, in order |
| IrFramesTest.SnapshotPathsDistinct | irFramesTest.cpp:75-78 | the four snapshot writers, or one writer under two indices, never share a file |
| IrFramesTest.SnapshotSavesPaths | irFramesTest.cpp:101-112 | a snapshot writes as many files as writers were dispatched, in dispatch order |
| IrFramesTest.SnapshotNamesDistinct | irFramesTest.cpp:75-121 | the files of one snapshot are distinct, and snapshots with different indices share no file |
| IrFramesTest.EmitterAlternates | irFramesTest.cpp:129-138 | starting from `emitter_toggle = true`, the k-th press of I commands `k % 2`: 0, 1, 0, 1, ... |
| IrFramesTest.KeyRules | irFramesTest.cpp:70-166 | I flips only the emitter toggle and T only the alignment flag. A is served while recording too, and moves the index by 1 iff all writers were dispatched. M sets bit 0x01, E clears the flag, and a non-press changes nothing |
| IrFramesTest.GridSamples | irFramesTest.cpp:313-318 | one aligned frame contributes exactly 100 samples |
| IrFramesTest.GridRowsAt | irFramesTest.cpp:313-318 | sample `k` of the first n columns is at column `k / 10` and row `k % 10` |
| IrFramesTest.GridShape | irFramesTest.cpp:284-285 | the grid is x in {603, 606, ..., 630} by y in {363, 366, ..., 390}, every sample tagged with the frame count |
| IrFramesTest.TaggedAppend | irFramesTest.cpp:307-320 | appending a frame's grid keeps the store tagged 100 entries per frame, frames 1, 2, ... in order |
| IrFramesTest.ReverseAt | irFramesTest.cpp:384-389 | the dump writes the i-th entry from the end as its i-th line, and every entry exactly once |
| IrFramesTest.DumpFrameOrder | irFramesTest.cpp:375-389 | the dump writes the newest frame's 100 entries first and frame 1's last |
| IrFramesTest.GatedRun | irFramesTest.cpp:340-353 | recording is always gated: `c_incr` ends on the last admitted tick and both numbers advance by the number of admitted ticks |
| IrFramesTest.GatedTicks | irFramesTest.cpp:340-353 | the ticks the gate keeps carry exactly the admitted stamps, in order |
| IrFramesTest.GatedSaves | irFramesTest.cpp:340-353 | while recording the files written are exactly `RecordedSaves` of the admitted ticks: each one's colour frame then its depth frame, in order; the k-th admitted tick's are named `col_frame_<cnum + k>.jpg` and `depth_frame_<dnum + k>.dat` |
| IrFramesTest.RecordedSlots | irFramesTest.cpp:340-353 | the files of k recorded ticks hold 2k writes, and the k-th tick's colour and depth files are numbered `cn + k` and `dn + k` |
| IrFramesTest.Recorder.constructor | irFramesTest.cpp:238-244 | start-up state: flags clear, `calib_num` 0, `emitter_toggle` true, gate 0, both numbers 1000000, empty samples, `framedepthcount` 1 |
| IrFramesTest.Recorder.Dispatch | irFramesTest.cpp:101-112 | one writer thread writes its one snapshot file and nothing else |
| IrFramesTest.Recorder.TakeSnapshot | irFramesTest.cpp:72-124 | writes the colour, depth, left and right infrared files in turn, cut short where an error is raised; `calib_num` moves only when all four were dispatched |
| IrFramesTest.Recorder.KeyCallback | irFramesTest.cpp:50-167 | the new controller, the emitter value set (only when the sensor supports it) and the files written are those of the key rules |
| IrFramesTest.Recorder.Tick | irFramesTest.cpp:293-354 | while aligning and under 5000 frames, 100 samples tagged with `framedepthcount` are appended and the count moves by 1, otherwise the store is unchanged; recording follows `Step` |
| IrFramesTest.Recorder.RecordFrame | irFramesTest.cpp:331-354 | while recording, an admitted tick writes its colour and depth files and moves `c_incr`, `cnum` and `dnum` |
| IrFramesTest.Recorder.SampleGrid | irFramesTest.cpp:313-318 | the nested loops append exactly the frame's 100 grid samples, x outer and y inner |
| IrFramesTest.Recorder.DumpDistances | irFramesTest.cpp:375-393 | only if a frame was sampled, the store is emptied and its entries are written newest first; otherwise nothing is written |

## Left out

- Display: GLFW windows, `glDrawPixels` and the key-event loop are left out. A key event is a parameter of `KeyCallback`.
- librealsense:
  - `wait_for_frames`, `get_frame_data`, the advanced-mode depth table and `align` are left out;
  - frames are byte-sequence parameters, required to hold at least the bytes each writer reads (`Complete`);
  - `get_option` results are a parameter, and a `set_option` call is returned as a value;
  - the device's reaction to those calls is not modelled;
  - an `rs2::error` during snapshot dispatch is the `SnapshotOutcome` parameter.
  - an `rs2::error` from `wait_for_frames` or from the "IRpointcheck" `get_data` (TermiteScan-dev/TermiteScan.cpp:126, 132; irFramesTest.cpp:92, 100) is raised before the `try`, so it leaves `key_callback` and ends the program through `main`'s catch (TermiteScan-dev/TermiteScan.cpp:476; irFramesTest.cpp:397). That path is not modelled. Because the IR frame's data is read before the `try`, `RaisedAt(IrWriter)` (`TermiteScanDev.SnapshotOutcome`) and `RaisedAt(IrLeftWriter)` (`IrFramesTest.SnapshotOutcome`) cannot occur through the caught path. The snapshot lemmas hold for every outcome, so they also cover these.
- Concurrency: each detached `boost::thread` save runs synchronously, in dispatch order. Races between threads, and frame buffers freed before a detached writer reads them, are not modelled. Sleeps are left out.
- Floating point: the requested framerate is a whole number, at least 1 wherever an interval is computed from it, and `static_cast<int>(1000 / fps)` is `1000 / fps` rounded down. Distances from `get_distance` are uninterpreted values that are only carried.
- JPEG encoding is not modelled. A JPEG file records the planar view and the quality it was made from.
- Plumbing: the wall clock (stamps are tick parameters), date strings, folder creation, the stdin prompts and `setrlimit` are left out.
- Integers are unbounded. Counter and frame-number overflow of C `int` is not modelled.
- The writer classes declare `width` and `height` as `int`; the model types them `nat`. Every caller passes positive constants, and a negative size would be undefined behaviour in the source's variable-length arrays.
- The `FRAMRATE_LIM` spelling at TermiteScan.cpp:640 names no defined macro. It is read as the limit 28 defined at line 52.
- The interval update at TermiteScan.cpp:697-700 sits behind `s_movflag`, which is never set, so it is not modelled.
- `termitescan.c` and the headers are not part of this model. The headers only declare the fields and signatures the classes carry.
- TermiteScan.Recorder.ColCompress:
  - `colCompress` is never started by `main`. It is modelled as a method callable once recording has stopped, and one pass while recording is `CompressWhileRecording`.
  - While recording, its inner loop can break with the queue empty after the flag clears, and then reuse a stale `filenum`. That path is not modelled: `CompressWhileRecording` requires a non-empty queue.
  - The producer writes `col_frame_<cnum>.jpg` but queues `cstamp`, while the consumer opens `col_frame_<filenum>.dat`. The model follows each side as written and does not connect them.
- TermiteScan.Recorder.ProcessEntry:
  - The `fopen` retry loop (TermiteScan.cpp:262-271) never increments `retry`. It is modelled as one open that succeeds iff the raw file exists.
  - The `len = fread(...) > 0` precedence slip at line 275 is harmless, because `len` is never used. The loop still runs while a read returns data.
  - `readBuf` starts with indeterminate contents. The model starts it as zeros, which only matters for the padding of a short last read.
- TermiteScan.Recorder.SaveColIm, TermiteScan.Recorder.ColorFrame: with `hresflag` false, the source's 1920 x 1080 view over 640 x 480 planes reads out of bounds (TermiteScan.cpp:109, 211). The model encodes the view sized by `hresflag` (`TermiteScan.ColourView`) instead. `main` always sets `hresflag` to true (TermiteScan.cpp:510), where the two views agree.
- TermiteScan.Recorder.Tick: the depth gate `d_incr` is also set on the gated colour path, as in the source. The `loopflag` global is set by M but read nowhere in the core, so it is only carried.
- IrFramesTest.Recorder.DumpDistances: the CSV formatting of each line and the output path are left out; the lines are returned as the sample sequence in write order.

## Findings

| source | as written | input that shows it | evidently intended | confidence | as-written member | corrected member |
|---|---|---|---|---|---|---|
| TermiteScan.cpp:232-241 | once recording has stopped, the loop condition pops an entry and the inner loop pops again, overwriting `filenum` before it is used | queue [5, 6] after recording stops: only frame 6 is compressed and `col_frame_5.dat` is never converted | one pop per entry, so every queued frame is compressed, oldest first | not executed | TermiteScan.Recorder.ColCompressAsWritten | TermiteScan.Recorder.ColCompress |
| TermiteScan-dev/TermiteScan.cpp:271 | `c_interval` is computed from the default `colframerate` of 30, before the prompt at lines 292-298 reads the requested rate, and is never recomputed | request 10 fps and offer ticks 0, 33, 66, 100: ticks 33, 66 and 100 are recorded instead of only 100 | the interval of the requested rate, as `TermiteScan.cpp` computes it after its prompt (lines 513-515, 601-602) | not executed | TermiteScanDev.IntervalIgnoresRate | TermiteScanDev.IntendedSpacing |
| TermiteScan.cpp:109 | `saveColIm` and `colorFrame` (line 211) build a 1920 x 1080 view whatever `hresflag` says, while the planes hold `arraysize` pixels | `hresflag` false: the planes hold 640 x 480 = 307200 pixels but the view spans 2073600, so the encoder reads past the arrays | a view sized by `hresflag`, as `colCompress` builds at lines 291-294 | not executed | TermiteScan.ViewGeometryMismatch | TermiteScan.ColourViewCoversPlanes |

The interval finding is live: the librealsense2 recorder's constructor runs
with `StartSettings`, as the program does. `TermiteScanDev.IntendedSettings`
is the corrected start-up. The loop, its runs and `GatedSaves` are stated
for any settings, so they hold unchanged for it.
