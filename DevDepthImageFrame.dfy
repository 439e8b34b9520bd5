/** `depthImageFrame` of the librealsense2 program: writes the raw 16-bit
    depth frame, two bytes per pixel. */
module DevDepthImageFrame {
  import opened Files

  /** Below this many bytes (640 x 480 x 2) a snapshot warns of corruption. */
  const MIN_SNAPSHOT_BYTES: int := 614400

  class DepthImageFrame {
    const width: nat
    const height: nat

    constructor (dWidth: nat, dHeight: nat)
      ensures width == dWidth && height == dHeight
    {
      width := dWidth;
      height := dHeight;
    }

    /** Bytes per frame: two per pixel. */
    function ArraySizeCalc(): nat {
      width * height * 2
    }

    /** Snapshot overload: warns when the geometry gives fewer bytes than a
        640 x 480 frame, and writes the frame whether or not it warned. */
    method SaveSnapshot(disk: Disk, dpoint: seq<Byte>, dPath: string, dFile: string) returns (warned: bool)
      requires ArraySizeCalc() <= |dpoint|
      modifies disk
      ensures warned <==> ArraySizeCalc() < MIN_SNAPSHOT_BYTES
      ensures disk.files == old(disk.files)[Path(dPath, dFile) := RawFile(dpoint[..ArraySizeCalc()])]
      ensures |disk.files[Path(dPath, dFile)].bytes| == ArraySizeCalc()
    {
      var arraysize := ArraySizeCalc();
      warned := arraysize < MIN_SNAPSHOT_BYTES;
      disk.WriteRaw(Path(dPath, dFile), dpoint[..arraysize]);
    }

    /** Movie overload: `depth_frame_<framenum>.dat`, no size check. */
    method SaveMovie(disk: Disk, dpoint: seq<Byte>, dPath: string, framenum: int)
      requires ArraySizeCalc() <= |dpoint|
      modifies disk
      ensures disk.files == old(disk.files)[DepthMoviePath(dPath, framenum) := RawFile(dpoint[..ArraySizeCalc()])]
    {
      var arraysize := ArraySizeCalc();
      disk.WriteRaw(DepthMoviePath(dPath, framenum), dpoint[..arraysize]);
    }
  }
}
