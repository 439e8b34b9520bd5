/** `irImageFrame` of the librealsense2 program: writes the raw 8-bit
    infrared frame, one byte per pixel. */
module DevIrImageFrame {
  import opened Files

  /** Below this many bytes (640 x 480) a snapshot warns of corruption. */
  const MIN_SNAPSHOT_BYTES: int := 307200

  class IrImageFrame {
    const width: nat
    const height: nat

    constructor (iWidth: nat, iHeight: nat)
      ensures width == iWidth && height == iHeight
    {
      width := iWidth;
      height := iHeight;
    }

    /** Bytes per frame: one per pixel. */
    function ArraySizeCalc(): nat {
      width * height
    }

    /** Snapshot overload: warns when the geometry gives fewer bytes than a
        640 x 480 frame, and writes the frame whether or not it warned. */
    method SaveSnapshot(disk: Disk, irpoint: seq<Byte>, irPath: string, irFile: string) returns (warned: bool)
      requires ArraySizeCalc() <= |irpoint|
      modifies disk
      ensures warned <==> ArraySizeCalc() < MIN_SNAPSHOT_BYTES
      ensures disk.files == old(disk.files)[Path(irPath, irFile) := RawFile(irpoint[..ArraySizeCalc()])]
      ensures |disk.files[Path(irPath, irFile)].bytes| == ArraySizeCalc()
    {
      var arraysize := ArraySizeCalc();
      warned := arraysize < MIN_SNAPSHOT_BYTES;
      disk.WriteRaw(Path(irPath, irFile), irpoint[..arraysize]);
    }

    /** Movie overload: `ir_frame_<framenum>.dat`, no size check. */
    method SaveMovie(disk: Disk, irpoint: seq<Byte>, irPath: string, framenum: int)
      requires ArraySizeCalc() <= |irpoint|
      modifies disk
      ensures disk.files == old(disk.files)[IrMoviePath(irPath, framenum) := RawFile(irpoint[..ArraySizeCalc()])]
    {
      var arraysize := ArraySizeCalc();
      disk.WriteRaw(IrMoviePath(irPath, framenum), irpoint[..arraysize]);
    }
  }
}
