/** The part of the file system the recorder touches: files keyed by
    directory and name, holding either raw bytes or a JPEG encoding. */
module Files {

  type Byte = bv8

  /** A planar 8-bit RGB view, as handed to the JPEG encoder. */
  datatype PlanarImage = PlanarImage(width: int, height: int, r: seq<Byte>, g: seq<Byte>, b: seq<Byte>)

  /** Content of one file. JPEG encoding itself is not modelled: a JPEG file
      records the view and the quality it was encoded from. */
  datatype File = RawFile(bytes: seq<Byte>) | JpegFile(image: PlanarImage, quality: int)

  /** `dir / name`, the path that boost::filesystem's `/=` builds. */
  datatype Path = Path(dir: string, name: string)

  class Disk {
    var files: map<Path, File>

    constructor ()
      ensures files == map[]
    {
      files := map[];
    }

    /** Open for binary output (truncating) and write `bytes`. */
    method WriteRaw(p: Path, bytes: seq<Byte>)
      modifies this
      ensures files == old(files)[p := RawFile(bytes)]
    {
      files := files[p := RawFile(bytes)];
    }

    /** `jpeg_write_view(p, image, quality)`. */
    method WriteJpeg(p: Path, image: PlanarImage, quality: int)
      modifies this
      ensures files == old(files)[p := JpegFile(image, quality)]
    {
      files := files[p := JpegFile(image, quality)];
    }

    /** `boost::filesystem::remove(p)`: removing a missing file is a no-op. */
    method Remove(p: Path)
      modifies this
      ensures files == old(files) - {p}
    {
      files := files - {p};
    }
  }

  // ---------------------------------------------------------------------
  // Decimal rendering of frame numbers (std::to_string on an int)
  // ---------------------------------------------------------------------

  predicate IsDigit(c: char) {
    '0' <= c <= '9'
  }

  function DigitChar(d: nat): (c: char)
    requires d < 10
    ensures IsDigit(c) && c as int - '0' as int == d
  {
    ('0' as int + d) as char
  }

  function DigitValue(c: char): nat {
    if IsDigit(c) then c as int - '0' as int else 0
  }

  /** Decimal digits of `n`, most significant first, no leading zeros. */
  function NatToString(n: nat): (s: string)
    ensures |s| > 0
    ensures forall i :: 0 <= i < |s| ==> IsDigit(s[i])
  {
    if n < 10 then [DigitChar(n)] else NatToString(n / 10) + [DigitChar(n % 10)]
  }

  /** `std::to_string(i)`: a minus sign for negative values. */
  function IntToString(i: int): string {
    if i < 0 then "-" + NatToString(-i) else NatToString(i)
  }

  /** Reads decimal digits back, most significant first. */
  function ParseNat(s: string): nat {
    if s == [] then 0 else 10 * ParseNat(s[..|s| - 1]) + DigitValue(s[|s| - 1])
  }

  function ParseInt(s: string): int {
    if |s| > 0 && s[0] == '-' then -(ParseNat(s[1..]) as int) else ParseNat(s)
  }

  lemma {:induction false} NatToStringRoundTrip(n: nat)
    ensures ParseNat(NatToString(n)) == n
  {
    var s := NatToString(n);
    if n < 10 {
      assert s[..|s| - 1] == [];
    } else {
      assert s[..|s| - 1] == NatToString(n / 10);
      NatToStringRoundTrip(n / 10);
    }
  }

  /** Every frame number can be read back from its rendering. */
  lemma IntToStringRoundTrip(i: int)
    ensures ParseInt(IntToString(i)) == i
  {
    var s := IntToString(i);
    if i < 0 {
      assert s[1..] == NatToString(-i);
      NatToStringRoundTrip(-i);
    } else {
      assert IsDigit(s[0]);
      NatToStringRoundTrip(i);
    }
  }

  /** `prefix + std::to_string(n) + suffix`, e.g. `col_frame_<n>.jpg`. */
  function FileName(prefix: string, n: int, suffix: string): string {
    prefix + IntToString(n) + suffix
  }

  /** Two different frame numbers never share a file name, so a new number
      never overwrites an earlier frame. */
  lemma FileNameInjective(prefix: string, suffix: string, n: int, m: int)
    ensures FileName(prefix, n, suffix) == FileName(prefix, m, suffix) ==> n == m
  {
    if FileName(prefix, n, suffix) == FileName(prefix, m, suffix) {
      var s, sn, sm := FileName(prefix, n, suffix), IntToString(n), IntToString(m);
      assert |sn| == |sm|;
      assert s[|prefix|..|prefix| + |sn|] == sn;
      assert s[|prefix|..|prefix| + |sm|] == sm;
      IntToStringRoundTrip(n);
      IntToStringRoundTrip(m);
    }
  }

  // ---------------------------------------------------------------------
  // Movie file names, keyed by frame number
  // ---------------------------------------------------------------------

  /** `<c_path>/col_frame_<n>.jpg` */
  function ColourMoviePath(dir: string, n: int): Path {
    Path(dir, FileName("col_frame_", n, ".jpg"))
  }

  /** `<d_path>/depth_frame_<n>.dat` */
  function DepthMoviePath(dir: string, n: int): Path {
    Path(dir, FileName("depth_frame_", n, ".dat"))
  }

  /** `<ir_path>/ir_frame_<n>.dat` */
  function IrMoviePath(dir: string, n: int): Path {
    Path(dir, FileName("ir_frame_", n, ".dat"))
  }

  /** A colour movie file is never a depth movie file. */
  lemma ColourNotDepth(cdir: string, ddir: string, n: int, m: int)
    ensures ColourMoviePath(cdir, n) != DepthMoviePath(ddir, m)
  {
    assert ColourMoviePath(cdir, n).name[0] != DepthMoviePath(ddir, m).name[0];
  }

  /** Different frame numbers give different colour movie files. */
  lemma ColourMoviePathInjective(dir: string, n: int, m: int)
    requires n != m
    ensures ColourMoviePath(dir, n) != ColourMoviePath(dir, m)
  {
    FileNameInjective("col_frame_", ".jpg", n, m);
  }

  /** Different frame numbers give different depth movie files. */
  lemma DepthMoviePathInjective(dir: string, n: int, m: int)
    requires n != m
    ensures DepthMoviePath(dir, n) != DepthMoviePath(dir, m)
  {
    FileNameInjective("depth_frame_", ".dat", n, m);
  }

  /** Movie files of different streams never collide, and within a stream
      different frame numbers give different files. */
  lemma MoviePathsDistinct(cdir: string, ddir: string, n: int, m: int)
    ensures ColourMoviePath(cdir, n) != DepthMoviePath(ddir, m)
    ensures ColourMoviePath(cdir, n) == ColourMoviePath(cdir, m) ==> n == m
    ensures DepthMoviePath(ddir, n) == DepthMoviePath(ddir, m) ==> n == m
  {
    ColourNotDepth(cdir, ddir, n, m);
    if n != m {
      ColourMoviePathInjective(cdir, n, m);
      DepthMoviePathInjective(ddir, n, m);
    }
  }

  // ---------------------------------------------------------------------
  // Sequences of writes
  // ---------------------------------------------------------------------

  /** One file write: `file` stored at `path`, replacing whatever was there. */
  datatype Save = Save(path: Path, file: File)

  /** The file map after performing `saves` in order. */
  function Apply(files: map<Path, File>, saves: seq<Save>): map<Path, File>
    decreases |saves|
  {
    if saves == [] then files else Apply(files[saves[0].path := saves[0].file], saves[1..])
  }

  /** Performing two batches of writes one after the other is performing
      their concatenation. */
  lemma {:induction false} ApplyAppend(files: map<Path, File>, a: seq<Save>, b: seq<Save>)
    ensures Apply(files, a + b) == Apply(Apply(files, a), b)
    decreases |a|
  {
    if a != [] {
      assert (a + b)[1..] == a[1..] + b;
      ApplyAppend(files[a[0].path := a[0].file], a[1..], b);
    } else {
      assert a + b == b;
    }
  }

  /** Two writes in a row. */
  lemma ApplyTwo(files: map<Path, File>, a: Save, b: Save)
    ensures Apply(files, [a, b]) == files[a.path := a.file][b.path := b.file]
  {
    assert [a, b][1..] == [b];
    assert [b][1..] == [];
    calc {
      Apply(files, [a, b]);
      Apply(files[a.path := a.file], [b]);
      Apply(files[a.path := a.file][b.path := b.file], []);
    }
  }

  /** Three writes in a row. */
  lemma ApplyThree(files: map<Path, File>, a: Save, b: Save, c: Save)
    ensures Apply(files, [a, b, c]) == files[a.path := a.file][b.path := b.file][c.path := c.file]
  {
    assert [a, b, c][1..] == [b, c];
    ApplyTwo(files[a.path := a.file], b, c);
  }

  /** Extending the writes performed by one more. */
  lemma ApplyPrefix(files: map<Path, File>, saves: seq<Save>, k: nat)
    requires k < |saves|
    ensures Apply(files, saves[..k + 1]) == Apply(files, saves[..k])[saves[k].path := saves[k].file]
  {
    assert saves[..k + 1] == saves[..k] + [saves[k]];
    ApplyAppend(files, saves[..k], [saves[k]]);
    assert [saves[k]][1..] == [];
  }

  // ---------------------------------------------------------------------
  // Movie runs: the k-th recorded tick of a run writes colour frame
  // `cn + k` then depth frame `dn + k`
  // ---------------------------------------------------------------------

  /** The movie file of the k-th recorded tick of a run whose numbers start
      at `cn` and `dn`: its colour frame, or its depth frame. */
  function MovieSlot(cdir: string, ddir: string, cn: int, dn: int, k: int, depth: bool): Path {
    if depth then DepthMoviePath(ddir, dn + k) else ColourMoviePath(cdir, cn + k)
  }

  lemma MovieSlotDistinct(cdir: string, ddir: string, cn: int, dn: int, k: int, a: bool, l: int, b: bool)
    requires k != l || a != b
    ensures MovieSlot(cdir, ddir, cn, dn, k, a) != MovieSlot(cdir, ddir, cn, dn, l, b)
  {
    if a && b {
      DepthMoviePathInjective(ddir, dn + k, dn + l);
    } else if !a && !b {
      ColourMoviePathInjective(cdir, cn + k, cn + l);
    } else if a {
      ColourNotDepth(cdir, ddir, cn + l, dn + k);
    } else {
      ColourNotDepth(cdir, ddir, cn + k, dn + l);
    }
  }

  /** Splits an index of the interleaved write sequence into the tick it
      belongs to and which of the two files it is. */
  lemma {:induction false} Halve(i: nat) returns (k: nat, odd: bool)
    ensures i == 2 * k + if odd then 1 else 0
    decreases i
  {
    if i < 2 {
      k, odd := 0, i == 1;
    } else {
      k, odd := Halve(i - 2);
      k := k + 1;
    }
  }

  /** `saves` are the files of `n` recorded ticks: for the k-th, colour frame
      `cn + k` then depth frame `dn + k`. */
  predicate Slots(saves: seq<Save>, cdir: string, ddir: string, cn: int, dn: int, n: nat) {
    && |saves| == 2 * n
    && forall k :: 0 <= k < n ==>
         saves[2 * k].path == MovieSlot(cdir, ddir, cn, dn, k, false) &&
         saves[2 * k + 1].path == MovieSlot(cdir, ddir, cn, dn, k, true)
  }

  /** A colour file numbered `cn` then a depth file numbered `dn` fill the
      first slot of a run. */
  lemma OneSlot(c: Save, d: Save, cdir: string, ddir: string, cn: int, dn: int)
    requires c.path == ColourMoviePath(cdir, cn) && d.path == DepthMoviePath(ddir, dn)
    ensures Slots([c, d], cdir, ddir, cn, dn, 1)
  {
    assert MovieSlot(cdir, ddir, cn, dn, 0, false) == ColourMoviePath(cdir, cn);
    assert MovieSlot(cdir, ddir, cn, dn, 0, true) == DepthMoviePath(ddir, dn);
  }

  lemma SlotsPrepend(head: seq<Save>, rest: seq<Save>, cdir: string, ddir: string, cn: int, dn: int, d: nat, n: nat)
    requires d <= 1 && Slots(head, cdir, ddir, cn, dn, d) && Slots(rest, cdir, ddir, cn + d, dn + d, n)
    ensures Slots(head + rest, cdir, ddir, cn, dn, d + n)
  {
    var saves := head + rest;
    forall k | 0 <= k < d + n
      ensures saves[2 * k].path == MovieSlot(cdir, ddir, cn, dn, k, false)
      ensures saves[2 * k + 1].path == MovieSlot(cdir, ddir, cn, dn, k, true)
    {
      if k >= d {
        assert saves[2 * k] == rest[2 * (k - d)] && saves[2 * k + 1] == rest[2 * (k - d) + 1];
        assert MovieSlot(cdir, ddir, cn + d, dn + d, k - d, false) == MovieSlot(cdir, ddir, cn, dn, k, false);
        assert MovieSlot(cdir, ddir, cn + d, dn + d, k - d, true) == MovieSlot(cdir, ddir, cn, dn, k, true);
      }
    }
  }

  lemma SlotsDistinct(saves: seq<Save>, cdir: string, ddir: string, cn: int, dn: int, n: nat)
    requires Slots(saves, cdir, ddir, cn, dn, n)
    ensures forall i, j :: 0 <= i < j < |saves| ==> saves[i].path != saves[j].path
  {
    forall i, j | 0 <= i < j < |saves|
      ensures saves[i].path != saves[j].path
    {
      var k, a := SlotOf(saves, cdir, ddir, cn, dn, n, i);
      var l, b := SlotOf(saves, cdir, ddir, cn, dn, n, j);
      MovieSlotDistinct(cdir, ddir, cn, dn, k, a, l, b);
    }
  }

  /** The tick and stream of the i-th write. */
  lemma SlotOf(saves: seq<Save>, cdir: string, ddir: string, cn: int, dn: int, n: nat, i: nat) returns (k: nat, depth: bool)
    requires Slots(saves, cdir, ddir, cn, dn, n) && i < |saves|
    ensures i == 2 * k + (if depth then 1 else 0)
    ensures saves[i].path == MovieSlot(cdir, ddir, cn, dn, k, depth)
  {
    k, depth := Halve(i);
    assert k < n;
  }
}
