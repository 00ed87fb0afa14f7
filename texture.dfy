/// The pixel copy of `MainApp::update_texture`: a `w * h` image of colour
/// triples, row-major, is written into the locked byte buffer of an RGB24
/// texture whose rows are `pitch` bytes apart.
module TextureCopy {
  import opened Base

  /// Component `c` (0 red, 1 green, 2 blue) of a colour triple.
  function Component(p: Rgb, c: nat): byte
    requires c < 3
  {
    if c == 0 then p.0 else if c == 1 then p.1 else p.2
  }

  lemma MulMonotonic(c: nat, a: nat, b: nat)
    requires a <= b
    ensures c * a <= c * b
  {
    assert c * b == c * a + c * (b - a);
  }

  /// Row-major indices of a `w * h` image stay below `w * h`.
  lemma RowMajorInRange(w: nat, h: nat, y: nat, x: nat)
    requires y < h && x < w
    ensures w * y + x < w * h
  {
    MulMonotonic(w, y + 1, h);
    assert w * (y + 1) == w * y + w;
  }

  /// Nothing is a pixel byte of an empty image, and nothing is written
  /// before the first row.
  lemma NothingWrittenYet(i: nat, pitch: nat, w: nat, h: nat)
    ensures !Written(i, pitch, w, h, 0)
    ensures w == 0 || h == 0 ==> !IsPixelByte(i, pitch, w, h)
  {
  }

  /// Byte `pitch * y + k` of row `y` lies in row `y`, column `k`, and no
  /// other index does.
  lemma RowColumn(i: nat, pitch: nat, y: nat, k: nat)
    requires k < pitch
    ensures i == pitch * y + k <==> (i / pitch == y && i % pitch == k)
  {
    var q, r := i / pitch, i % pitch;
    assert i == pitch * q + r;
    if i == pitch * y + k && q != y {
      if q < y {
        MulMonotonic(pitch, q + 1, y);
      } else {
        MulMonotonic(pitch, y + 1, q);
      }
    }
  }

  /// Whether byte `i` of the buffer holds a colour component of the image
  /// (rather than row padding or bytes below the last row).
  predicate IsPixelByte(i: nat, pitch: nat, w: nat, h: nat)
  {
    pitch > 0 && i / pitch < h && i % pitch < 3 * w
  }

  /// The image pixel that byte `i` of the buffer shows: row `i / pitch`,
  /// column `(i % pitch) / 3`, in row-major order.
  function SourcePixel(i: nat, pitch: nat, w: nat): nat
    requires pitch > 0
  {
    w * (i / pitch) + (i % pitch) / 3
  }

  lemma SourcePixelInRange(i: nat, pitch: nat, w: nat, h: nat)
    requires IsPixelByte(i, pitch, w, h)
    ensures SourcePixel(i, pitch, w) < w * h
  {
    var y, k := i / pitch, i % pitch;
    assert k / 3 < w;
    RowMajorInRange(w, h, y, k / 3);
  }

  /// The buffer after the copy: each pixel byte holds its component of the
  /// image pixel at the same row and column; every other byte is unchanged.
  function Copied(before: seq<byte>, image: seq<Rgb>, pitch: nat, w: nat, h: nat): (r: seq<byte>)
    requires 3 * w <= pitch && w * h <= |image|
    ensures |r| == |before|
  {
    seq(|before|, i requires 0 <= i < |before| =>
      if IsPixelByte(i, pitch, w, h) then
        SourcePixelInRange(i, pitch, w, h);
        Component(image[SourcePixel(i, pitch, w)], (i % pitch) % 3)
      else before[i])
  }

  /// For every `y < h`, `x < w`: bytes `pitch*y + 3x .. pitch*y + 3x + 2`
  /// receive the red, green and blue of `image[w*y + x]`.
  lemma CopiedPixel(before: seq<byte>, image: seq<Rgb>, pitch: nat, w: nat, h: nat, y: nat, x: nat, c: nat)
    requires 3 * w <= pitch && w * h <= |image|
    requires y < h && x < w && c < 3 && pitch * y + 3 * x + c < |before|
    ensures w * y + x < |image|
    ensures Copied(before, image, pitch, w, h)[pitch * y + 3 * x + c] == Component(image[w * y + x], c)
  {
    RowMajorInRange(w, h, y, x);
    RowColumn(pitch * y + 3 * x + c, pitch, y, 3 * x + c);
  }

  /// Row padding, and everything past the last row, is left as it was.
  lemma CopiedPadding(before: seq<byte>, image: seq<Rgb>, pitch: nat, w: nat, h: nat, i: nat)
    requires 3 * w <= pitch && w * h <= |image|
    requires i < |before| && !IsPixelByte(i, pitch, w, h)
    ensures Copied(before, image, pitch, w, h)[i] == before[i]
  {
  }

  /// Whether the copy stays inside the buffer and the image: the source
  /// indexes both without checks, so anything else panics.
  predicate CopyFits(len: nat, imageLen: nat, pitch: nat, w: nat, h: nat)
  {
    w == 0 || h == 0 || (pitch * (h - 1) + 3 * w <= len && w * h <= imageLen)
  }

  /// Whether the accesses the copy loops make for pixel `k` (row `k / w`,
  /// column `k % w`) all stay in range: the image read at `k` and the three
  /// buffer bytes from `pitch * (k / w) + 3 * (k % w)` on.
  predicate PixelInRange(len: nat, imageLen: nat, pitch: nat, w: nat, k: nat)
    requires 0 < w
  {
    k < imageLen && PixelStart(pitch, w, k) + 2 < len
  }

  /// `pixel_index` for pixel `k`: the first of its three buffer bytes.
  function PixelStart(pitch: nat, w: nat, k: nat): nat
    requires 0 < w
  {
    pitch * (k / w) + 3 * (k % w)
  }

  /// The first access out of range made by the copy loops from pixel `k` on,
  /// as the length indexed and the index. For each pixel the image element
  /// is read before the three buffer bytes are assigned, in order.
  function FirstFault(len: nat, imageLen: nat, pitch: nat, w: nat, h: nat, k: nat): (r: Option<(nat, nat)>)
    requires 0 < w && k <= w * h
    ensures r.Some? ==> r.value.0 <= r.value.1 && (r.value.0 == len || r.value.0 == imageLen)
    decreases w * h - k
  {
    if k == w * h then None
    else if imageLen <= k then Some((imageLen, k))
    else
      var p := PixelStart(pitch, w, k);
      if len <= p then Some((len, p))
      else if len <= p + 1 then Some((len, p + 1))
      else if len <= p + 2 then Some((len, p + 2))
      else FirstFault(len, imageLen, pitch, w, h, k + 1)
  }

  /// The scan from `k` finds nothing exactly when every pixel from `k` on is
  /// in range.
  lemma {:induction false} NoFaultFrom(len: nat, imageLen: nat, pitch: nat, w: nat, h: nat, k: nat)
    requires 0 < w && k <= w * h
    ensures FirstFault(len, imageLen, pitch, w, h, k).None? <==>
            forall j :: k <= j < w * h ==> PixelInRange(len, imageLen, pitch, w, j)
    decreases w * h - k
  {
    if k < w * h {
      NoFaultFrom(len, imageLen, pitch, w, h, k + 1);
      assert FirstFault(len, imageLen, pitch, w, h, k).None? <==>
             PixelInRange(len, imageLen, pitch, w, k) && FirstFault(len, imageLen, pitch, w, h, k + 1).None?;
    }
  }

  /// Pixel `j` of a `w * h` image lies in a row below `h`, and its three
  /// bytes end no later than the last row's `3 * w` bytes do.
  lemma PixelBytesBelowLastRow(pitch: nat, w: nat, h: nat, j: nat)
    requires 0 < w && j < w * h
    ensures j / w < h && pitch * (j / w) + 3 * (j % w) + 3 <= pitch * (h - 1) + 3 * w
  {
    var y, x := j / w, j % w;
    assert j == w * y + x;
    if h <= y {
      MulMonotonic(w, h, y);
    }
    MulMonotonic(pitch, y, h - 1);
  }

  /// Every pixel of a non-empty copy is in range exactly when the copy fits.
  lemma AllInRangeIffFits(len: nat, imageLen: nat, pitch: nat, w: nat, h: nat)
    requires 0 < w && 0 < h
    ensures (forall j :: 0 <= j < w * h ==> PixelInRange(len, imageLen, pitch, w, j)) <==>
            CopyFits(len, imageLen, pitch, w, h)
  {
    if CopyFits(len, imageLen, pitch, w, h) {
      forall j | 0 <= j < w * h
        ensures PixelInRange(len, imageLen, pitch, w, j)
      {
        PixelBytesBelowLastRow(pitch, w, h, j);
      }
    } else if imageLen < w * h {
      assert !PixelInRange(len, imageLen, pitch, w, imageLen);
    } else {
      var last := w * h - 1;
      assert last == w * (h - 1) + (w - 1);
      RowColumn(last, w, h - 1, w - 1);
      assert !PixelInRange(len, imageLen, pitch, w, last);
    }
  }

  /// The access that makes the copy panic, if any: there is one exactly
  /// when the copy does not fit, and it indexes at or past the length of the
  /// buffer or of the image.
  function CopyFault(len: nat, imageLen: nat, pitch: nat, w: nat, h: nat): (r: Option<(nat, nat)>)
    ensures r.None? <==> CopyFits(len, imageLen, pitch, w, h)
    ensures r.Some? ==> r.value.0 <= r.value.1 && (r.value.0 == len || r.value.0 == imageLen)
  {
    if w == 0 || h == 0 then None
    else
      NoFaultFrom(len, imageLen, pitch, w, h, 0);
      AllInRangeIffFits(len, imageLen, pitch, w, h);
      FirstFault(len, imageLen, pitch, w, h, 0)
  }

  /// With rows `3 * w` bytes apart in a `pitch * h` buffer only the image can
  /// run short, and the copy then faults reading it at its own length.
  lemma ShortImageFault(pitch: nat, w: nat, h: nat, imageLen: nat)
    requires 3 * w <= pitch && imageLen < w * h
    ensures CopyFault(pitch * h, imageLen, pitch, w, h) == Some((imageLen, imageLen))
  {
    ScanToImageEnd(pitch, w, h, imageLen, 0);
  }

  /// The scan from any pixel before the end of a short image reaches that
  /// end without a buffer fault.
  lemma {:induction false} ScanToImageEnd(pitch: nat, w: nat, h: nat, imageLen: nat, k: nat)
    requires 3 * w <= pitch && imageLen < w * h && k <= imageLen
    ensures 0 < w && FirstFault(pitch * h, imageLen, pitch, w, h, k) == Some((imageLen, imageLen))
    decreases imageLen - k
  {
    if k < imageLen {
      PixelBytesBelowLastRow(pitch, w, h, k);
      assert pitch * h == pitch * (h - 1) + pitch;
      ScanToImageEnd(pitch, w, h, imageLen, k + 1);
    }
  }

  /// The pixel bytes already written when the copy has finished rows `0 .. y-1`.
  ghost predicate Written(i: nat, pitch: nat, w: nat, h: nat, y: nat)
  {
    IsPixelByte(i, pitch, w, h) && i / pitch < y
  }

  /// Whether byte `i` lies in the `3 * w` bytes row `y` starts with.
  predicate InRow(i: int, pitch: nat, w: nat, y: nat)
  {
    pitch * y <= i < pitch * y + 3 * w
  }

  /// With rows at least `3 * w` bytes apart, the bytes written for row `y`
  /// are exactly the pixel bytes whose row is `y`.
  lemma RowRange(i: nat, pitch: nat, w: nat, h: nat, y: nat)
    requires 3 * w <= pitch && y < h
    ensures Written(i, pitch, w, h, y + 1) <==> Written(i, pitch, w, h, y) || InRow(i, pitch, w, y)
  {
    if InRow(i, pitch, w, y) {
      RowColumn(i, pitch, y, i - pitch * y);
    } else if pitch > 0 && i / pitch == y {
      RowColumn(i, pitch, y, i % pitch);
    }
  }

  /// The buffer, once rows `0 .. y-1` are copied, holds the target value at
  /// every byte written so far and its old value everywhere else.
  ghost predicate CopiedUpTo(buf: seq<byte>, before: seq<byte>, target: seq<byte>,
                             pitch: nat, w: nat, h: nat, y: nat)
    requires |buf| == |before| == |target|
  {
    forall i :: 0 <= i < |buf| ==>
      buf[i] == if Written(i, pitch, w, h, y) then target[i] else before[i]
  }

  /// Byte `3 * x + c` of a row starting at `start`.
  function RowByte(start: nat, x: nat, c: nat): nat
  {
    start + 3 * x + c
  }

  /// Whether the `3 * w` bytes at `start` hold the `w` pixels of the image
  /// at `first`, a colour triple each.
  ghost predicate RowHolds(buf: seq<byte>, image: seq<Rgb>, start: nat, first: nat, w: nat)
    requires start + 3 * w <= |buf| && first + w <= |image|
  {
    forall x, c :: 0 <= x < w && 0 <= c < 3 ==> buf[RowByte(start, x, c)] == Component(image[first + x], c)
  }

  /// One pass of the inner loop of `update_texture`: writes the `w` pixels
  /// of a row, read from the image at `first` (`w * y`), into the bytes at
  /// `start` (`pitch * y`), and nothing else.
  method CopyRow(buf: array<byte>, start: nat, w: nat, image: seq<Rgb>, first: nat)
    requires start + 3 * w <= buf.Length && first + w <= |image|
    modifies buf
    ensures RowHolds(buf[..], image, start, first, w)
    ensures forall i :: 0 <= i < buf.Length && !(start <= i < start + 3 * w) ==> buf[i] == old(buf[i])
  {
    var x := 0;
    while x < w
      invariant 0 <= x <= w
      invariant forall x', c :: 0 <= x' < x && 0 <= c < 3 ==> buf[RowByte(start, x', c)] == Component(image[first + x'], c)
      invariant forall i :: 0 <= i < buf.Length && !(start <= i < start + 3 * x) ==> buf[i] == old(buf[i])
    {
      var pixelIndex := start + x * 3;
      var mandelbrotIndex := first + x;
      var p := image[mandelbrotIndex];
      buf[pixelIndex], buf[pixelIndex + 1], buf[pixelIndex + 2] := p.0, p.1, p.2;
      x := x + 1;
    }
  }

  /// Copying row `y` on top of rows `0 .. y-1` extends the written part by
  /// exactly row `y`.
  lemma CopiedRowStep(prev: seq<byte>, buf: seq<byte>, before: seq<byte>, image: seq<Rgb>,
                      pitch: nat, w: nat, h: nat, y: nat)
    requires 3 * w <= pitch && y < h && w * h <= |image|
    requires |prev| == |buf| == |before|
    requires pitch * y + 3 * w <= |buf| && w * y + w <= |image|
    requires CopiedUpTo(prev, before, Copied(before, image, pitch, w, h), pitch, w, h, y)
    requires RowHolds(buf, image, pitch * y, w * y, w)
    requires forall i :: 0 <= i < |buf| && !(pitch * y <= i < pitch * y + 3 * w) ==> buf[i] == prev[i]
    ensures CopiedUpTo(buf, before, Copied(before, image, pitch, w, h), pitch, w, h, y + 1)
  {
    var target := Copied(before, image, pitch, w, h);
    forall i | 0 <= i < |buf|
      ensures buf[i] == if Written(i, pitch, w, h, y + 1) then target[i] else before[i]
    {
      RowRange(i, pitch, w, h, y);
      if InRow(i, pitch, w, y) {
        var x, c := (i - pitch * y) / 3, (i - pitch * y) % 3;
        assert buf[RowByte(pitch * y, x, c)] == Component(image[w * y + x], c);
        CopiedPixel(before, image, pitch, w, h, y, x, c);
      }
    }
  }

  /// What the outer loop keeps once rows `0 .. y-1` are copied (`start` and
  /// `first` track `pitch * y` and `w * y`): with rows `3 * w` bytes apart or
  /// more, the copied part agrees with `Copied`; whatever the pitch, the
  /// bytes after the last row written are untouched and that row holds its
  /// image row.
  ghost predicate RowsCopied(buf: seq<byte>, before: seq<byte>, image: seq<Rgb>, pitch: nat, w: nat, h: nat,
                             y: nat, start: nat, first: nat)
    requires |buf| == |before|
  {
    && y <= h && start == pitch * y && first == w * y
    && (3 * w <= pitch && w * h <= |image| ==>
          CopiedUpTo(buf, before, Copied(before, image, pitch, w, h), pitch, w, h, y))
    && (forall i :: 0 <= i < |buf| && (y == 0 || start - pitch + 3 * w <= i) ==> buf[i] == before[i])
    && (0 < y ==> start - pitch + 3 * w <= |buf| && first <= |image| &&
                  RowHolds(buf, image, start - pitch, first - w, w))
  }

  /// One iteration of the outer loop of `update_texture`: copies row `y`.
  method CopyNextRow(buf: array<byte>, pitch: nat, w: nat, h: nat, image: seq<Rgb>,
                     y: nat, start: nat, first: nat, ghost before: seq<byte>)
    requires 0 < w && y < h && CopyFits(buf.Length, |image|, pitch, w, h) && |before| == buf.Length
    requires RowsCopied(buf[..], before, image, pitch, w, h, y, start, first)
    modifies buf
    ensures RowsCopied(buf[..], before, image, pitch, w, h, y + 1, start + pitch, first + w)
  {
    MulMonotonic(pitch, y, h - 1);
    MulMonotonic(w, y + 1, h);
    ghost var prev := buf[..];
    CopyRow(buf, start, w, image, first);
    if 3 * w <= pitch {
      CopiedRowStep(prev, buf[..], before, image, pitch, w, h, y);
    }
    assert pitch * (y + 1) == start + pitch && w * (y + 1) == first + w;
  }

  /// The outer loop of `update_texture`, over the rows of a non-empty image.
  method CopyRows(buf: array<byte>, pitch: nat, w: nat, h: nat, image: seq<Rgb>)
    requires 0 < w && 0 < h && CopyFits(buf.Length, |image|, pitch, w, h)
    modifies buf
    ensures RowsCopied(buf[..], old(buf[..]), image, pitch, w, h, h, pitch * h, w * h)
  {
    ghost var before := buf[..];
    forall i | 0 <= i < buf.Length
      ensures !Written(i, pitch, w, h, 0)
    {
      NothingWrittenYet(i, pitch, w, h);
    }
    var y: nat, start: nat, first: nat := 0, 0, 0;
    while y < h
      invariant RowsCopied(buf[..], before, image, pitch, w, h, y, start, first)
    {
      CopyNextRow(buf, pitch, w, h, image, y, start, first, before);
      y, start, first := y + 1, start + pitch, first + w;
    }
  }

  /// Whatever the pitch, the last row of a non-empty copy holds the last
  /// image row.
  ghost predicate LastRowHolds(buf: seq<byte>, image: seq<Rgb>, pitch: nat, w: nat, h: nat)
  {
    0 < w && 0 < h ==>
      && pitch * (h - 1) + 3 * w <= |buf| && w * (h - 1) + w <= |image|
      && RowHolds(buf, image, pitch * (h - 1), w * (h - 1), w)
  }

  /// The bytes after the last row written are those of `before`.
  ghost predicate TailUnchanged(buf: seq<byte>, before: seq<byte>, pitch: nat, w: nat, h: nat)
    requires |buf| == |before|
  {
    forall i :: 0 <= i < |buf| && (w == 0 || h == 0 || pitch * (h - 1) + 3 * w <= i) ==> buf[i] == before[i]
  }

  /// The nested loops of `update_texture`, writing in place. When rows are
  /// at least `3 * w` bytes apart the result is `Copied`; whatever the
  /// pitch, the last row holds the last image row and the bytes after it
  /// are untouched.
  method CopyImage(buf: array<byte>, pitch: nat, w: nat, h: nat, image: seq<Rgb>)
    requires CopyFits(buf.Length, |image|, pitch, w, h)
    modifies buf
    ensures w * h <= |image|
    ensures 3 * w <= pitch ==> buf[..] == Copied(old(buf[..]), image, pitch, w, h)
    ensures LastRowHolds(buf[..], image, pitch, w, h)
    ensures TailUnchanged(buf[..], old(buf[..]), pitch, w, h)
  {
    ghost var before := buf[..];
    if w == 0 || h == 0 {
      if 3 * w <= pitch {
        forall i | 0 <= i < buf.Length
          ensures buf[i] == Copied(before, image, pitch, w, h)[i]
        {
          NothingWrittenYet(i, pitch, w, h);
        }
      }
      return;
    }
    CopyRows(buf, pitch, w, h, image);
    assert pitch * (h - 1) == pitch * h - pitch && w * (h - 1) == w * h - w;
    if 3 * w <= pitch {
      forall i | 0 <= i < buf.Length
        ensures buf[i] == Copied(before, image, pitch, w, h)[i]
      {
        if !IsPixelByte(i, pitch, w, h) {
          CopiedPadding(before, image, pitch, w, h, i);
        }
      }
    }
  }
}
