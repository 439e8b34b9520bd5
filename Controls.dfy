/** Keyboard commands and the 8-bit recording flag `g_movflag` shared by the
    three programs. */
module Controls {

  /** The GLFW keys the programs react to; every other key is `Other`. */
  datatype Key = KeyA | Key1 | Key2 | Key3 | KeyC | KeyD | KeyE | KeyF | KeyI | KeyM | KeyP | KeyS | KeyT
               | Other(code: int)

  datatype Option<T> = None | Some(value: T)

  /** GLFW key actions; only `Press` triggers anything. */
  datatype Action = Press | Release | Repeat

  /** Bit 0x01: all streams are recording. */
  const ALL_MOV: bv8 := 0x01
  /** Bit 0x02: colour movie toggle. */
  const COL_MOV: bv8 := 0x02
  /** Bit 0x04: depth movie toggle. */
  const DEP_MOV: bv8 := 0x04

  predicate Recording(flag: bv8) {
    flag & ALL_MOV != 0
  }

  predicate HasBit(flag: bv8, bit: bv8) {
    flag & bit != 0
  }

  /** Key M: `g_movflag |= allmov`. */
  function StartAll(flag: bv8): bv8 {
    flag | ALL_MOV
  }

  /** Keys C and D: `g_movflag ^= colmov` / `g_movflag ^= depmov`. */
  function Toggle(flag: bv8, bit: bv8): bv8 {
    flag ^ bit
  }

  /** Key E: `g_movflag = 0x00`. */
  const STOPPED: bv8 := 0x00

  /** M turns recording on, keeps every other bit, and a second M changes
      nothing. */
  lemma StartAllProperties(flag: bv8)
    ensures Recording(StartAll(flag))
    ensures StartAll(flag) & !ALL_MOV == flag & !ALL_MOV
    ensures StartAll(StartAll(flag)) == StartAll(flag)
  {
  }

  /** C and D flip exactly their own bit; pressing twice restores the flag. */
  lemma ToggleProperties(flag: bv8, bit: bv8)
    requires bit == COL_MOV || bit == DEP_MOV
    ensures HasBit(Toggle(flag, bit), bit) == !HasBit(flag, bit)
    ensures Toggle(flag, bit) & !bit == flag & !bit
    ensures Recording(Toggle(flag, bit)) == Recording(flag)
    ensures Toggle(Toggle(flag, bit), bit) == flag
  {
  }

  /** E clears every bit, so nothing is recording afterwards. */
  lemma StopProperties()
    ensures !Recording(STOPPED) && !HasBit(STOPPED, COL_MOV) && !HasBit(STOPPED, DEP_MOV)
  {
  }
}
