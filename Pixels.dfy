/** Packed RGB (R,G,B per pixel) to planar RGB (three channel buffers), the
    conversion every colour writer does before JPEG encoding. */
module Pixels {
  import opened Files

  datatype Planes = Planes(r: seq<Byte>, g: seq<Byte>, b: seq<Byte>) {
    predicate Aligned() {
      |r| == |g| == |b|
    }
    function Append(other: Planes): Planes {
      Planes(r + other.r, g + other.g, b + other.b)
    }
  }

  /** The planes holding the first `n` pixels of packed buffer `buf`. */
  function Deinterleave(buf: seq<Byte>, n: nat): Planes
    requires 3 * n <= |buf|
  {
    Planes(seq(n, j requires 0 <= j < n => buf[3 * j]),
           seq(n, j requires 0 <= j < n => buf[3 * j + 1]),
           seq(n, j requires 0 <= j < n => buf[3 * j + 2]))
  }

  /** The inverse direction: pack aligned planes pixel by pixel. */
  function Interleave(p: Planes): (s: seq<Byte>)
    requires p.Aligned()
    ensures |s| == 3 * |p.r|
    decreases |p.r|
  {
    if |p.r| == 0 then []
    else [p.r[0], p.g[0], p.b[0]] + Interleave(Planes(p.r[1..], p.g[1..], p.b[1..]))
  }

  lemma {:induction false} InterleaveAt(p: Planes, j: nat)
    requires p.Aligned() && j < |p.r|
    ensures Interleave(p)[3 * j] == p.r[j]
    ensures Interleave(p)[3 * j + 1] == p.g[j]
    ensures Interleave(p)[3 * j + 2] == p.b[j]
    decreases j
  {
    if j > 0 {
      var tail := Planes(p.r[1..], p.g[1..], p.b[1..]);
      InterleaveAt(tail, j - 1);
      assert Interleave(p) == [p.r[0], p.g[0], p.b[0]] + Interleave(tail);
    }
  }

  /** Splitting a packed buffer into planes loses nothing: packing the planes
      again gives the buffer back. */
  lemma InterleaveDeinterleave(buf: seq<Byte>)
    requires |buf| % 3 == 0
    ensures Deinterleave(buf, |buf| / 3).Aligned()
    ensures Interleave(Deinterleave(buf, |buf| / 3)) == buf
  {
    var n := |buf| / 3;
    var p := Deinterleave(buf, n);
    var s := Interleave(p);
    forall k | 0 <= k < |buf|
      ensures s[k] == buf[k]
    {
      var j := k / 3;
      assert 3 * j == k || 3 * j + 1 == k || 3 * j + 2 == k;
      InterleaveAt(p, j);
    }
  }

  lemma InterleaveAll(p: Planes)
    requires p.Aligned()
    ensures forall j :: 0 <= j < |p.r| ==>
      Interleave(p)[3 * j] == p.r[j] && Interleave(p)[3 * j + 1] == p.g[j] && Interleave(p)[3 * j + 2] == p.b[j]
  {
    forall j | 0 <= j < |p.r| {
      InterleaveAt(p, j);
    }
  }

  /** And de-interleaving a packed image gives back its planes. */
  lemma DeinterleaveInterleave(p: Planes)
    requires p.Aligned()
    ensures Deinterleave(Interleave(p), |p.r|) == p
  {
    InterleaveAll(p);
    PlanesOfPixels(p, Interleave(p), |p.r|);
  }

  /** Aligned planes of `n` pixels that agree with every pixel of a packed
      buffer of `n` pixels are its de-interleaving. */
  lemma PlanesOfPixels(p: Planes, raw: seq<Byte>, n: nat)
    requires |raw| == 3 * n && p.Aligned() && |p.r| == n
    requires forall j :: 0 <= j && 3 * j + 2 < |raw| ==>
      j < |p.r| && p.r[j] == raw[3 * j] && p.g[j] == raw[3 * j + 1] && p.b[j] == raw[3 * j + 2]
    ensures p == Deinterleave(raw, n)
  {
    var d := Deinterleave(raw, n);
    assert p.r == d.r by {
      forall j | 0 <= j < n ensures p.r[j] == d.r[j] { assert 3 * j + 2 < |raw|; }
    }
    assert p.g == d.g by {
      forall j | 0 <= j < n ensures p.g[j] == d.g[j] { assert 3 * j + 2 < |raw|; }
    }
    assert p.b == d.b by {
      forall j | 0 <= j < n ensures p.b[j] == d.b[j] { assert 3 * j + 2 < |raw|; }
    }
  }

  /** De-interleaving a concatenation, split at a pixel boundary, is the
      concatenation of the two de-interleavings. */
  lemma DeinterleaveAppend(a: seq<Byte>, b: seq<Byte>, n: nat, m: nat)
    requires |a| == 3 * n && 3 * m <= |b|
    ensures Deinterleave(a + b, n + m) == Deinterleave(a, n).Append(Deinterleave(b, m))
  {
    var whole, left, right := Deinterleave(a + b, n + m), Deinterleave(a, n), Deinterleave(b, m);
    assert whole.r == left.r + right.r by {
      forall j | 0 <= j < n + m ensures whole.r[j] == (left.r + right.r)[j] {
        if j >= n { assert (a + b)[3 * j] == b[3 * (j - n)]; }
      }
    }
    assert whole.g == left.g + right.g by {
      forall j | 0 <= j < n + m ensures whole.g[j] == (left.g + right.g)[j] {
        if j >= n { assert (a + b)[3 * j + 1] == b[3 * (j - n) + 1]; }
      }
    }
    assert whole.b == left.b + right.b by {
      forall j | 0 <= j < n + m ensures whole.b[j] == (left.b + right.b)[j] {
        if j >= n { assert (a + b)[3 * j + 2] == b[3 * (j - n) + 2]; }
      }
    }
  }

  /** The de-interleave loop of the colour writers: fill `colR`, `colG`,
      `colB` from every third byte of the packed buffer. */
  method DeinterleaveLoop(buf: seq<Byte>, arraysize: nat) returns (planes: Planes)
    requires 3 * arraysize <= |buf|
    ensures |planes.r| == |planes.g| == |planes.b| == arraysize
    ensures forall j :: 0 <= j < arraysize ==>
      planes.r[j] == buf[3 * j] && planes.g[j] == buf[3 * j + 1] && planes.b[j] == buf[3 * j + 2]
    ensures planes == Deinterleave(buf, arraysize)
  {
    var colR := new Byte[arraysize];
    var colG := new Byte[arraysize];
    var colB := new Byte[arraysize];
    for j := 0 to arraysize
      invariant forall k :: 0 <= k < j ==> colR[k] == buf[3 * k]
      invariant forall k :: 0 <= k < j ==> colG[k] == buf[3 * k + 1]
      invariant forall k :: 0 <= k < j ==> colB[k] == buf[3 * k + 2]
    {
      colR[j] := buf[3 * j];
      colG[j] := buf[3 * j + 1];
      colB[j] := buf[3 * j + 2];
    }
    planes := Planes(colR[..], colG[..], colB[..]);
  }

  /** Quality every colour writer passes to `jpeg_write_view`. */
  const JPEG_QUALITY: int := 95

  /** The JPEG file a colour writer produces from a packed frame: the first
      `width * height` pixels, split into planes, viewed as width x height. */
  function ColourJpeg(width: nat, height: nat, packed: seq<Byte>): File
    requires 3 * (width * height) <= |packed|
  {
    var p := Deinterleave(packed, width * height);
    JpegFile(PlanarImage(width, height, p.r, p.g, p.b), JPEG_QUALITY)
  }
}
