/** `depthImageFrame` of the librealsense1 program: the same raw depth writer
    without a corruption check; the snapshot overload takes the frame the
    device currently holds. */
module DepthImageFrame {
  import opened Files

  class DepthImageFrame {
    const width: nat
    const height: nat

    constructor (dWidth: nat, dHeight: nat)
      ensures width == dWidth && height == dHeight
    {
      width := dWidth;
      height := dHeight;
    }

    /** Bytes per frame: two per pixel. */
    function ArraySizeCalc(): nat {
      width * height * 2
    }

    /** Snapshot overload: `deviceDepth` is what `get_frame_data(depth)`
        returns; the file name is used verbatim. */
    method SaveSnapshot(disk: Disk, deviceDepth: seq<Byte>, dPath: string, dFile: string)
      requires ArraySizeCalc() <= |deviceDepth|
      modifies disk
      ensures disk.files == old(disk.files)[Path(dPath, dFile) := RawFile(deviceDepth[..ArraySizeCalc()])]
      ensures |disk.files[Path(dPath, dFile)].bytes| == ArraySizeCalc()
    {
      var arraysize := ArraySizeCalc();
      disk.WriteRaw(Path(dPath, dFile), deviceDepth[..arraysize]);
    }

    /** Movie overload: writes the given buffer to `depth_frame_<framenum>.dat`. */
    method SaveMovie(disk: Disk, dpoint: seq<Byte>, dPath: string, framenum: int)
      requires ArraySizeCalc() <= |dpoint|
      modifies disk
      ensures disk.files == old(disk.files)[DepthMoviePath(dPath, framenum) := RawFile(dpoint[..ArraySizeCalc()])]
    {
      var arraysize := ArraySizeCalc();
      disk.WriteRaw(DepthMoviePath(dPath, framenum), dpoint[..arraysize]);
    }
  }
}
