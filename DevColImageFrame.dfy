/** `colImageFrame` of the librealsense2 program: writes a packed RGB frame as
    a quality-95 JPEG of its planar view. */
module DevColImageFrame {
  import opened Files
  import opened Pixels

  class ColImageFrame {
    const width: nat
    const height: nat

    constructor (cWidth: nat, cHeight: nat)
      ensures width == cWidth && height == cHeight
    {
      width := cWidth;
      height := cHeight;
    }

    /** Pixels per frame, one byte per pixel in each plane. */
    function ColSizeCalc(): nat {
      width * height
    }

    /** Snapshot overload: the file name is used verbatim. Only the first
        `3 * ColSizeCalc()` bytes of the frame are read. */
    method SaveSnapshot(disk: Disk, cpoint: seq<Byte>, cPath: string, cFile: string)
      requires 3 * ColSizeCalc() <= |cpoint|
      modifies disk
      ensures disk.files == old(disk.files)[Path(cPath, cFile) := ColourJpeg(width, height, cpoint)]
      ensures disk.files[Path(cPath, cFile)] == ColourJpeg(width, height, cpoint[..3 * ColSizeCalc()])
    {
      var arraysize := ColSizeCalc();
      var planes := DeinterleaveLoop(cpoint, arraysize);
      disk.WriteJpeg(Path(cPath, cFile), PlanarImage(width, height, planes.r, planes.g, planes.b), JPEG_QUALITY);
    }

    /** Movie overload: the file is `col_frame_<framenum>.jpg`. */
    method SaveMovie(disk: Disk, cpoint: seq<Byte>, cPath: string, framenum: int)
      requires 3 * ColSizeCalc() <= |cpoint|
      modifies disk
      ensures disk.files == old(disk.files)[ColourMoviePath(cPath, framenum) := ColourJpeg(width, height, cpoint)]
    {
      var arraysize := ColSizeCalc();
      var planes := DeinterleaveLoop(cpoint, arraysize);
      disk.WriteJpeg(ColourMoviePath(cPath, framenum), PlanarImage(width, height, planes.r, planes.g, planes.b), JPEG_QUALITY);
    }
  }
}
