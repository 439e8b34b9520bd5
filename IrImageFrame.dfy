/** `irImageFrame` of the librealsense1 program: writes the infrared frame
    the device currently holds, one byte per pixel. */
module IrImageFrame {
  import opened Files

  class IrImageFrame {
    const width: nat
    const height: nat

    constructor (iWidth: nat, iHeight: nat)
      ensures width == iWidth && height == iHeight
    {
      width := iWidth;
      height := iHeight;
    }

    /** Bytes per frame: one per pixel. */
    function IrSizeCalc(): nat {
      width * height
    }

    /** `deviceIr` is what `get_frame_data(infrared)` returns; the file name
        is used verbatim. */
    method SaveSnapshot(disk: Disk, deviceIr: seq<Byte>, irPath: string, irFile: string)
      requires IrSizeCalc() <= |deviceIr|
      modifies disk
      ensures disk.files == old(disk.files)[Path(irPath, irFile) := RawFile(deviceIr[..IrSizeCalc()])]
      ensures |disk.files[Path(irPath, irFile)].bytes| == IrSizeCalc()
    {
      var arraysize := IrSizeCalc();
      disk.WriteRaw(Path(irPath, irFile), deviceIr[..arraysize]);
    }
  }
}
