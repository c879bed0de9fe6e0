/** CreateNoiseVolume and GetDensity: a vol_size^3 volume of RGBA8 voxels whose
    alpha channel (channel 3) holds random density and whose channels 0..2 hold
    the encoded normal of the density gradient, uploaded slice by slice and row
    by row into a 3D texture with a row pitch and a slice pitch. Bytes are
    modelled as a byte newtype; the random generator's draws are an input
    sequence, and the float normalisation of the gradient is a caller-supplied
    encoder. Coordinates and indices are unsigned 32-bit in the source; where
    that matters the model reduces modulo 2^32 explicitly. */
module NoiseVolume {
  import opened Arithmetic
  import opened Vectors

  newtype byte = x: int | 0 <= x < 256

  const U32Range: int := 0x1_0000_0000
  const Int32Min: int := -0x8000_0000
  const Int32Max: int := 0x7FFF_FFFF

  /** vol_size * vol_size * vol_size * 4 is computed in uint32 arithmetic, so it is
      the true buffer size only below vol_size = 1024. */
  const MaxVolSize: nat := 1023

  /** Reinterpreting an int as uint32: reduction modulo 2^32. */
  function ToU32(v: int): nat { v % U32Range }

  predicate ValidVolume(vs: nat) { 0 < vs <= MaxVolSize }

  function VolumeBytes(vs: nat): nat { vs * vs * vs * 4 }

  /** The voxel number of (x, y, z): x fastest, then y, then z. */
  function VoxelIndex(x: nat, y: nat, z: nat, vs: nat): nat { (z * vs + y) * vs + x }

  /** GetDensity's coordinate wrap: `if (c < 0) c += vol_size;` then `c % vol_size`,
      both in unsigned arithmetic because vol_size is a uint32. */
  function WrapCoord(c: int, vs: nat): (r: nat)
    requires ValidVolume(vs)
    ensures r < vs
  {
    ToU32(if c < 0 then c + vs else c) % vs
  }

  /** The index GetDensity reads: channel 3 of the wrapped voxel. */
  function DensityIndex(x: int, y: int, z: int, vs: nat): (i: nat)
    requires ValidVolume(vs)
    ensures i < VolumeBytes(vs) && i % 4 == 3
  {
    VoxelInVolume(WrapCoord(x, vs), WrapCoord(y, vs), WrapCoord(z, vs), vs);
    VoxelIndex(WrapCoord(x, vs), WrapCoord(y, vs), WrapCoord(z, vs), vs) * 4 + 3
  }

  /** GetDensity: the alpha byte of the wrapped voxel, mapped to [-0.5, 0.5]. */
  function GetDensity(x: int, y: int, z: int, data: seq<byte>, vs: nat): (d: real)
    requires ValidVolume(vs) && |data| == VolumeBytes(vs)
    ensures -0.5 <= d <= 0.5
  {
    data[DensityIndex(x, y, z, vs)] as real / 255.0 - 0.5
  }

  // ---------------------------------------------------------------------------
  // Voxel indexing

  lemma VoxelInVolume(x: nat, y: nat, z: nat, vs: nat)
    requires x < vs && y < vs && z < vs
    ensures VoxelIndex(x, y, z, vs) < vs * vs * vs
    ensures VoxelIndex(x, y, z, vs) * 4 + 3 < VolumeBytes(vs)
  {
    MulMonotone(z * vs + y + 1, vs * vs, vs) by {
      MulMonotone(z + 1, vs, vs);
      MulSucc(z, vs);
    }
    MulSucc(z * vs + y, vs);
    assert vs * vs * vs * 4 == (vs * vs * vs) * 4;
  }

  /** The coordinates of voxel number v. */
  function VoxelX(v: nat, vs: nat): nat requires vs > 0 { v % vs }
  function VoxelY(v: nat, vs: nat): nat requires vs > 0 { v / vs % vs }
  function VoxelZ(v: nat, vs: nat): nat requires vs > 0 { v / vs / vs }

  /** The voxel numbering is a bijection: each of x, y, z is recovered from the number. */
  lemma VoxelDecompose(x: nat, y: nat, z: nat, vs: nat)
    requires x < vs && y < vs && z < vs
    ensures VoxelX(VoxelIndex(x, y, z, vs), vs) == x
    ensures VoxelY(VoxelIndex(x, y, z, vs), vs) == y
    ensures VoxelZ(VoxelIndex(x, y, z, vs), vs) == z
  {
    DivModUnique(VoxelIndex(x, y, z, vs), vs, z * vs + y, x);
    DivModUnique(z * vs + y, vs, z, y);
  }

  lemma VoxelRowStep(y: nat, z: nat, vs: nat)
    ensures VoxelIndex(vs, y, z, vs) == VoxelIndex(0, y + 1, z, vs)
    ensures VoxelIndex(0, vs, z, vs) == VoxelIndex(0, 0, z + 1, vs)
  {
    MulSucc(z * vs + y, vs);
    MulSucc(z, vs);
  }

  // ---------------------------------------------------------------------------
  // The coordinate wrap

  /** From -vol_size upwards (and within int) the wrap is the periodic remainder:
      -1 aliases vol_size - 1 and vol_size aliases 0. */
  lemma WrapCoordPeriodic(c: int, vs: nat)
    requires ValidVolume(vs) && -(vs as int) <= c <= Int32Max
    ensures WrapCoord(c, vs) == c % vs
    ensures 0 <= c < vs ==> WrapCoord(c, vs) == c
    ensures WrapCoord(-1, vs) == vs - 1 && WrapCoord(vs, vs) == 0
  {
    WrapSmall(c, vs);
    if 0 <= c < vs {
      DivModUnique(c, vs, 0, c);
    }
    assert WrapCoord(-1, vs) == vs - 1 by {
      WrapSmall(-1, vs);
      ModAddMultiple(-1, 1, vs);
      DivModUnique(vs - 1, vs, 0, vs - 1);
    }
    assert WrapCoord(vs, vs) == 0 by {
      WrapSmall(vs, vs);
      DivModUnique(vs, vs, 1, 0);
    }
  }

  lemma WrapSmall(c: int, vs: nat)
    requires ValidVolume(vs) && -(vs as int) <= c <= Int32Max
    ensures WrapCoord(c, vs) == c % vs
  {
    if c >= 0 {
      DivModUnique(c, U32Range, 0, c);
    } else {
      var v := c + vs;
      DivModUnique(v, U32Range, 0, v);
      ModAddMultiple(c, 1, vs);
    }
  }

  /** When vol_size divides 2^32 (a power of two, as the sample's 32) the wrap is
      periodic for every int coordinate. */
  lemma {:induction false} WrapCoordPowerOfTwo(c: int, vs: nat, k: nat)
    requires ValidVolume(vs) && k * vs == U32Range && Int32Min <= c <= Int32Max
    ensures WrapCoord(c, vs) == c % vs
  {
    var v := if c < 0 then c + vs else c;
    if v < 0 {
      assert ToU32(v) == v + U32Range by { ModAddMultiple(v, 1, U32Range); }
      ModAddMultiple(v, k, vs);
    }
    ModAddMultiple(c, 1, vs);
  }

  /** Below -vol_size, for a vol_size that does not divide 2^32, the unsigned
      arithmetic breaks the periodicity: with vol_size 3, -4 wraps to 0, not 2. */
  lemma WrapCoordBeyondRange()
    ensures WrapCoord(-4, 3) == 0 && -4 % 3 == 2
  {
  }

  /** GetDensity is periodic on the coordinates the normal loop passes (-1 .. vol_size). */
  lemma DensityAliases(y: int, z: int, data: seq<byte>, vs: nat)
    requires ValidVolume(vs) && |data| == VolumeBytes(vs)
    ensures GetDensity(-1, y, z, data, vs) == GetDensity(vs - 1, y, z, data, vs)
    ensures GetDensity(vs, y, z, data, vs) == GetDensity(0, y, z, data, vs)
  {
    WrapCoordPeriodic(-1, vs);
    WrapCoordPeriodic(vs - 1, vs);
    WrapCoordPeriodic(0, vs);
  }

  /** Two buffers with the same alpha channel have the same densities. */
  predicate SameDensities(a: seq<byte>, b: seq<byte>) {
    |a| == |b| && forall i :: 0 <= i < |a| && i % 4 == 3 ==> a[i] == b[i]
  }

  lemma DensityReadsOnlyAlpha(x: int, y: int, z: int, a: seq<byte>, b: seq<byte>, vs: nat)
    requires ValidVolume(vs) && |a| == VolumeBytes(vs) && SameDensities(a, b)
    ensures GetDensity(x, y, z, a, vs) == GetDensity(x, y, z, b, vs)
  {
  }

  // ---------------------------------------------------------------------------
  // Step 1: random densities into channel 3

  /** The buffer after the random fill: channel 3 of voxel v is the v-th draw,
      the other channels keep their zero initialisation. */
  function FilledByte(noise: seq<byte>, i: nat): byte
    requires i < 4 * |noise|
  {
    if i % 4 == 3 then noise[i / 4] else 0
  }

  /** The first loop of CreateNoiseVolume: data[i * 4 + 3] = random_gen() for
      each of the data.size() / 4 voxels. */
  method FillDensities(data: array<byte>, noise: seq<byte>)
    requires data.Length == 4 * |noise|
    modifies data
    ensures forall i :: 0 <= i < data.Length ==>
      data[i] == (if i % 4 == 3 then noise[i / 4] else old(data[i]))
  {
    for i := 0 to data.Length / 4
      invariant forall j :: 0 <= j < 4 * i ==> data[j] == (if j % 4 == 3 then noise[j / 4] else old(data[j]))
      invariant forall j :: 4 * i <= j < data.Length ==> data[j] == old(data[j])
    {
      data[i * 4 + 3] := noise[i];
      assert forall j :: 4 * i <= j < 4 * i + 4 ==> j / 4 == i && j % 4 == j - 4 * i;
    }
  }

  // ---------------------------------------------------------------------------
  // Step 2: encoded normals into channels 0..2

  /** height_adjust */
  const HeightAdjust: real := 0.5

  /** The central-difference density gradient at voxel (x, y, z), divided by height_adjust. */
  function Gradient(x: nat, y: nat, z: nat, data: seq<byte>, vs: nat): (g: Vec3)
    requires ValidVolume(vs) && |data| == VolumeBytes(vs)
    ensures -2.0 <= g.x <= 2.0 && -2.0 <= g.y <= 2.0 && -2.0 <= g.z <= 2.0
  {
    Vec3((GetDensity(x + 1, y, z, data, vs) - GetDensity(x - 1, y, z, data, vs)) / HeightAdjust,
         (GetDensity(x, y + 1, z, data, vs) - GetDensity(x, y - 1, z, data, vs)) / HeightAdjust,
         (GetDensity(x, y, z + 1, data, vs) - GetDensity(x, y, z - 1, data, vs)) / HeightAdjust)
  }

  /** MathLib::clamp(v, 0, 255). */
  function Clamp(v: int): (b: byte)
    ensures 0 <= v <= 255 ==> b as int == v
    ensures v < 0 ==> b == 0
    ensures v > 255 ==> b == 255
  {
    if v < 0 then 0 else if v > 255 then 255 else v as byte
  }

  /** The stand-in for the float part of the normal encoding: normalise the
      gradient and map each component n to int((n / 2 + 0.5) * 255). */
  type Encoder = Vec3 -> (int, int, int)

  /** The byte the normal loop writes to channel c (0..2) of voxel (x, y, z):
      channel 2 takes the x component, 1 the y component, 0 the z component. */
  function NormalByte(data: seq<byte>, vs: nat, encode: Encoder, x: nat, y: nat, z: nat, c: nat): byte
    requires ValidVolume(vs) && |data| == VolumeBytes(vs) && c < 3
  {
    var n := encode(Gradient(x, y, z, data, vs));
    if c == 2 then Clamp(n.0) else if c == 1 then Clamp(n.1) else Clamp(n.2)
  }

  /** The buffer after the normal loop, as a function of the buffer before it:
      channel 3 unchanged, channels 0..2 the clamped encoded normal. */
  function EncodedByte(data: seq<byte>, vs: nat, encode: Encoder, i: nat): byte
    requires ValidVolume(vs) && |data| == VolumeBytes(vs) && i < |data|
  {
    if i % 4 == 3 then data[i]
    else
      NormalByte(data, vs, encode, VoxelX(i / 4, vs), VoxelY(i / 4, vs), VoxelZ(i / 4, vs), i % 4)
  }

  /** The first `done` voxels hold their encoded bytes, the rest are as before. */
  ghost predicate EncodedUpTo(cur: seq<byte>, orig: seq<byte>, vs: nat, encode: Encoder, done: nat)
    requires ValidVolume(vs) && |orig| == VolumeBytes(vs)
  {
    |cur| == |orig| &&
    forall i :: 0 <= i < |cur| ==> cur[i] == (if i < 4 * done then EncodedByte(orig, vs, encode, i) else orig[i])
  }

  /** The normal loop of CreateNoiseVolume: for z, y, x in row-major order, write
      the clamped encoded normal to channels 2, 1 and 0 of the voxel. The
      gradients are read from the buffer being written, but only from channel 3,
      which the loop never writes, so every voxel sees the densities of the input. */
  method EncodeNormals(data: array<byte>, vs: nat, encode: Encoder)
    requires ValidVolume(vs) && data.Length == VolumeBytes(vs)
    modifies data
    ensures forall i :: 0 <= i < data.Length ==> data[i] == EncodedByte(old(data[..]), vs, encode, i)
  {
    ghost var orig := data[..];
    ghost var done := 0;
    for z := 0 to vs
      invariant done == VoxelIndex(0, 0, z, vs)
      invariant EncodedUpTo(data[..], orig, vs, encode, done)
    {
      for y := 0 to vs
        invariant done == VoxelIndex(0, y, z, vs)
        invariant EncodedUpTo(data[..], orig, vs, encode, done)
      {
        for x := 0 to vs
          invariant done == VoxelIndex(x, y, z, vs)
          invariant EncodedUpTo(data[..], orig, vs, encode, done)
        {
          EncodeVoxel(data, vs, encode, orig, x, y, z);
          done := done + 1;
        }
        VoxelRowStep(y, z, vs);
      }
      VoxelRowStep(vs, z, vs);
      VoxelRowStep(0, z, vs);
    }
    assert done == vs * vs * vs;
    assert 4 * done == data.Length;
  }

  /** One iteration of the normal loop. */
  method EncodeVoxel(data: array<byte>, vs: nat, encode: Encoder, ghost orig: seq<byte>, x: nat, y: nat, z: nat)
    requires ValidVolume(vs) && |orig| == VolumeBytes(vs) && x < vs && y < vs && z < vs
    requires EncodedUpTo(data[..], orig, vs, encode, VoxelIndex(x, y, z, vs))
    modifies data
    ensures EncodedUpTo(data[..], orig, vs, encode, VoxelIndex(x, y, z, vs) + 1)
  {
    var v := VoxelIndex(x, y, z, vs);
    VoxelInVolume(x, y, z, vs);
    VoxelDecompose(x, y, z, vs);
    assert SameDensities(data[..], orig);
    DensityReadsOnlyAlpha(x + 1, y, z, data[..], orig, vs);
    DensityReadsOnlyAlpha(x - 1, y, z, data[..], orig, vs);
    DensityReadsOnlyAlpha(x, y + 1, z, data[..], orig, vs);
    DensityReadsOnlyAlpha(x, y - 1, z, data[..], orig, vs);
    DensityReadsOnlyAlpha(x, y, z + 1, data[..], orig, vs);
    DensityReadsOnlyAlpha(x, y, z - 1, data[..], orig, vs);
    var n := encode(Gradient(x, y, z, data[..], vs));
    assert Gradient(x, y, z, data[..], vs) == Gradient(x, y, z, orig, vs);
    data[v * 4 + 2] := Clamp(n.0);
    data[v * 4 + 1] := Clamp(n.1);
    data[v * 4 + 0] := Clamp(n.2);
    assert forall i :: 4 * v <= i < 4 * v + 4 ==> i / 4 == v && i % 4 == i - 4 * v;
  }

  /** The normal loop writes only channels 0..2; every byte it writes is the
      clamp of the encoder's output into [0, 255]. */
  lemma EncodedKeepsAlpha(data: seq<byte>, vs: nat, encode: Encoder, x: nat, y: nat, z: nat, c: nat)
    requires ValidVolume(vs) && |data| == VolumeBytes(vs) && x < vs && y < vs && z < vs && c < 4
    ensures VoxelIndex(x, y, z, vs) * 4 + c < |data|
    ensures c == 3 ==> EncodedByte(data, vs, encode, VoxelIndex(x, y, z, vs) * 4 + c) == data[VoxelIndex(x, y, z, vs) * 4 + c]
    ensures c < 3 ==> EncodedByte(data, vs, encode, VoxelIndex(x, y, z, vs) * 4 + c) == NormalByte(data, vs, encode, x, y, z, c)
  {
    var v := VoxelIndex(x, y, z, vs);
    VoxelInVolume(x, y, z, vs);
    VoxelDecompose(x, y, z, vs);
    DivModUnique(v * 4 + c, 4, v, c);
    var i := v * 4 + c;
    assert i / 4 == v && i % 4 == c;
    assert VoxelX(i / 4, vs) == x && VoxelY(i / 4, vs) == y && VoxelZ(i / 4, vs) == z;
  }

  // ---------------------------------------------------------------------------
  // Step 3: pitched upload into the 3D texture

  /** Row (z, y) of voxels starts at byte ((z * vs + y) * vs) * 4 of the buffer. */
  function SourceRow(z: nat, y: nat, vs: nat): nat { VoxelIndex(0, y, z, vs) * 4 }

  /** The offset line 125 passes to memcpy: &data[(z * vs + y) * vs], a voxel
      number used as a byte offset. */
  function SourceRowAsWritten(z: nat, y: nat, vs: nat): nat { VoxelIndex(0, y, z, vs) }

  /** Every row start leaves room for the vs * 4 bytes memcpy copies. */
  ghost predicate RowsInData(rowStart: (nat, nat) -> nat, vs: nat, size: nat) {
    forall z: nat, y: nat :: z < vs && y < vs ==> rowStart(z, y) + 4 * vs <= size
  }

  predicate Pitches(vs: nat, rowPitch: nat, slicePitch: nat) {
    0 < vs && 4 * vs <= rowPitch && rowPitch * vs <= slicePitch
  }

  /** The slice, the row within the slice, and the byte within the row of byte i
      of a mapped texture with the given pitches. */
  function SliceOf(i: nat, slicePitch: nat): nat requires slicePitch > 0 { i / slicePitch }
  function RowOf(i: nat, rowPitch: nat, slicePitch: nat): nat requires rowPitch > 0 && slicePitch > 0 { i % slicePitch / rowPitch }
  function ColumnOf(i: nat, rowPitch: nat, slicePitch: nat): nat requires rowPitch > 0 && slicePitch > 0 { i % slicePitch % rowPitch }

  /** Whether byte i of the mapped texture lies in the row-pitch or slice-pitch padding. */
  function IsPadding(i: nat, vs: nat, rowPitch: nat, slicePitch: nat): bool
    requires Pitches(vs, rowPitch, slicePitch)
  {
    RowOf(i, rowPitch, slicePitch) >= vs || ColumnOf(i, rowPitch, slicePitch) >= 4 * vs
  }

  /** The texture byte the upload leaves at offset i: for texel bytes, the source
      byte of its row; padding keeps its previous value. */
  function UploadedByte(data: seq<byte>, vs: nat, rowPitch: nat, slicePitch: nat,
                        rowStart: (nat, nat) -> nat, before: byte, i: nat): byte
    requires Pitches(vs, rowPitch, slicePitch) && i < slicePitch * vs
    requires RowsInData(rowStart, vs, |data|)
  {
    if IsPadding(i, vs, rowPitch, slicePitch) then before
    else
      TexelSourceInData(data, vs, rowPitch, slicePitch, rowStart, i);
      data[rowStart(SliceOf(i, slicePitch), RowOf(i, rowPitch, slicePitch)) + ColumnOf(i, rowPitch, slicePitch)]
  }

  lemma TexelSourceInData(data: seq<byte>, vs: nat, rowPitch: nat, slicePitch: nat,
                          rowStart: (nat, nat) -> nat, i: nat)
    requires Pitches(vs, rowPitch, slicePitch) && i < slicePitch * vs
    requires RowsInData(rowStart, vs, |data|) && !IsPadding(i, vs, rowPitch, slicePitch)
    ensures rowStart(SliceOf(i, slicePitch), RowOf(i, rowPitch, slicePitch)) + ColumnOf(i, rowPitch, slicePitch) < |data|
  {
    RowIndexBound(i, slicePitch, vs);
    assert rowStart(SliceOf(i, slicePitch), RowOf(i, rowPitch, slicePitch)) + 4 * vs <= |data|;
  }

  /** memcpy(dst + dstOff, src + srcOff, n). */
  method MemCopy(dst: array<byte>, dstOff: nat, src: seq<byte>, srcOff: nat, n: nat)
    requires dstOff + n <= dst.Length && srcOff + n <= |src|
    modifies dst
    ensures forall j :: 0 <= j < dst.Length ==>
      dst[j] == (if dstOff <= j < dstOff + n then src[srcOff + (j - dstOff)] else old(dst[j]))
  {
    for k := 0 to n
      invariant forall j :: 0 <= j < dst.Length ==>
        dst[j] == (if dstOff <= j < dstOff + k then src[srcOff + (j - dstOff)] else old(dst[j]))
    {
      dst[dstOff + k] := src[srcOff + k];
    }
  }

  /** The bytes below p hold their uploaded values, those from p on are untouched. */
  ghost predicate UploadedBelow(cur: seq<byte>, before: seq<byte>, p: nat, data: seq<byte>, vs: nat,
                                rowPitch: nat, slicePitch: nat, rowStart: (nat, nat) -> nat)
    requires Pitches(vs, rowPitch, slicePitch) && |before| == slicePitch * vs
    requires RowsInData(rowStart, vs, |data|)
  {
    |cur| == |before| &&
    (forall i :: 0 <= i < p && i < |cur| ==> cur[i] == UploadedByte(data, vs, rowPitch, slicePitch, rowStart, before[i], i)) &&
    (forall i :: p <= i < |cur| ==> cur[i] == before[i])
  }

  /** The upload loop: a byte pointer p walks the mapped texture, advancing by the
      row pitch after each row and by the rest of the slice pitch after each slice;
      each row receives vs * 4 bytes of the buffer starting at rowStart(z, y). */
  method UploadVolume(data: seq<byte>, vs: nat, rowPitch: nat, slicePitch: nat,
                      rowStart: (nat, nat) -> nat, dst: array<byte>)
    requires Pitches(vs, rowPitch, slicePitch) && dst.Length == slicePitch * vs
    requires RowsInData(rowStart, vs, |data|)
    modifies dst
    ensures forall i :: 0 <= i < dst.Length ==>
      dst[i] == UploadedByte(data, vs, rowPitch, slicePitch, rowStart, old(dst[i]), i)
  {
    ghost var before := dst[..];
    var p := 0;
    for z := 0 to vs
      invariant p == z * slicePitch
      invariant UploadedBelow(dst[..], before, p, data, vs, rowPitch, slicePitch, rowStart)
    {
      for y := 0 to vs
        invariant p == z * slicePitch + y * rowPitch
        invariant UploadedBelow(dst[..], before, p, data, vs, rowPitch, slicePitch, rowStart)
      {
        UploadRow(data, vs, rowPitch, slicePitch, rowStart, dst, before, z, y, p);
        p := p + rowPitch;
      }
      SkipSlicePadding(dst[..], before, data, vs, rowPitch, slicePitch, rowStart, z);
      p := p + (slicePitch - rowPitch * vs);
      MulSucc(z, slicePitch);
    }
    assert p == |before|;
  }

  /** One iteration of the row loop: memcpy of row (z, y) to the pointer p. */
  method UploadRow(data: seq<byte>, vs: nat, rowPitch: nat, slicePitch: nat,
                   rowStart: (nat, nat) -> nat, dst: array<byte>, ghost before: seq<byte>,
                   z: nat, y: nat, p: nat)
    requires Pitches(vs, rowPitch, slicePitch) && |before| == slicePitch * vs
    requires RowsInData(rowStart, vs, |data|)
    requires z < vs && y < vs && p == z * slicePitch + y * rowPitch
    requires UploadedBelow(dst[..], before, p, data, vs, rowPitch, slicePitch, rowStart)
    modifies dst
    ensures UploadedBelow(dst[..], before, p + rowPitch, data, vs, rowPitch, slicePitch, rowStart)
  {
    RowInSlice(y, z, vs, rowPitch, slicePitch);
    MemCopy(dst, p, data, rowStart(z, y), vs * 4);
    forall i | p <= i < p + rowPitch
      ensures dst[i] == UploadedByte(data, vs, rowPitch, slicePitch, rowStart, before[i], i)
    {
      TexelOffset(i, z, y, vs, rowPitch, slicePitch);
    }
  }

  /** Row y of slice z ends inside the slice, and the slice inside the texture. */
  lemma RowInSlice(y: nat, z: nat, vs: nat, rowPitch: nat, slicePitch: nat)
    requires Pitches(vs, rowPitch, slicePitch) && y < vs && z < vs
    ensures z * slicePitch + y * rowPitch + rowPitch <= z * slicePitch + rowPitch * vs
    ensures z * slicePitch + slicePitch <= slicePitch * vs
  {
    RowBounds(y, rowPitch, vs);
    RowBounds(z, slicePitch, vs);
  }

  /** The bytes between the last row of slice z and the next slice are padding. */
  lemma SkipSlicePadding(cur: seq<byte>, before: seq<byte>, data: seq<byte>, vs: nat,
                         rowPitch: nat, slicePitch: nat, rowStart: (nat, nat) -> nat, z: nat)
    requires Pitches(vs, rowPitch, slicePitch) && |before| == slicePitch * vs
    requires RowsInData(rowStart, vs, |data|) && z < vs
    requires UploadedBelow(cur, before, z * slicePitch + vs * rowPitch, data, vs, rowPitch, slicePitch, rowStart)
    ensures UploadedBelow(cur, before, z * slicePitch + slicePitch, data, vs, rowPitch, slicePitch, rowStart)
  {
    RowBounds(z, slicePitch, vs);
    forall i | z * slicePitch + vs * rowPitch <= i < z * slicePitch + slicePitch
      ensures IsPadding(i, vs, rowPitch, slicePitch)
    {
      ModInRow(i, z, slicePitch);
      assert i % slicePitch >= vs * rowPitch;
      RowAtLeast(i % slicePitch, vs, rowPitch);
    }
  }

  /** An offset at or past `count` rows lies in row `count` or later. */
  lemma RowAtLeast(r: nat, count: nat, pitch: nat)
    requires pitch > 0 && count * pitch <= r
    ensures r / pitch >= count
  {
    if r / pitch < count {
      MulMonotone(r / pitch + 1, count, pitch);
      MulSucc(r / pitch, pitch);
    }
  }

  /** Where byte i of row (z, y) sits: slice z, row y, column i - z * slicePitch - y * rowPitch. */
  lemma TexelOffset(i: nat, z: nat, y: nat, vs: nat, rowPitch: nat, slicePitch: nat)
    requires Pitches(vs, rowPitch, slicePitch) && y < vs
    requires z * slicePitch + y * rowPitch <= i < z * slicePitch + y * rowPitch + rowPitch
    ensures SliceOf(i, slicePitch) == z
    ensures RowOf(i, rowPitch, slicePitch) == y
    ensures ColumnOf(i, rowPitch, slicePitch) == i - z * slicePitch - y * rowPitch
  {
    RowBounds(y, rowPitch, vs);
    ModInRow(i, z, slicePitch);
    ModInRow(i % slicePitch, y, rowPitch);
  }

  // ---------------------------------------------------------------------------
  // Where the upload puts each voxel

  /** The row starts as functions of (z, y), as the upload loop uses them. */
  function SourceRows(vs: nat): (nat, nat) -> nat { (z: nat, y: nat) => SourceRow(z, y, vs) }
  function SourceRowsAsWritten(vs: nat): (nat, nat) -> nat { (z: nat, y: nat) => SourceRowAsWritten(z, y, vs) }

  /** Both row-start choices stay inside the vs^3 * 4 byte buffer, so neither
      reads out of bounds. */
  lemma RowStartsInData(vs: nat)
    requires ValidVolume(vs)
    ensures RowsInData(SourceRows(vs), vs, VolumeBytes(vs))
    ensures RowsInData(SourceRowsAsWritten(vs), vs, VolumeBytes(vs))
  {
    forall z: nat, y: nat | z < vs && y < vs
      ensures SourceRow(z, y, vs) + 4 * vs <= VolumeBytes(vs)
      ensures SourceRowAsWritten(z, y, vs) + 4 * vs <= VolumeBytes(vs)
    {
      VoxelInVolume(vs - 1, y, z, vs);
      assert VoxelIndex(vs - 1, y, z, vs) == VoxelIndex(0, y, z, vs) + vs - 1;
    }
  }

  /** The offset of byte c of texel (x, y, z) in the mapped texture. */
  function MappedOffset(x: nat, y: nat, z: nat, c: nat, rowPitch: nat, slicePitch: nat): nat {
    z * slicePitch + y * rowPitch + 4 * x + c
  }

  /** Byte c of texel x in row (z, y) lies in the texture, in slice z, row y, column 4 * x + c. */
  lemma TexelInTexture(vs: nat, rowPitch: nat, slicePitch: nat, x: nat, y: nat, z: nat, c: nat)
    requires Pitches(vs, rowPitch, slicePitch) && x < vs && y < vs && z < vs && c < 4
    ensures MappedOffset(x, y, z, c, rowPitch, slicePitch) < slicePitch * vs
    ensures SliceOf(MappedOffset(x, y, z, c, rowPitch, slicePitch), slicePitch) == z
    ensures RowOf(MappedOffset(x, y, z, c, rowPitch, slicePitch), rowPitch, slicePitch) == y
    ensures ColumnOf(MappedOffset(x, y, z, c, rowPitch, slicePitch), rowPitch, slicePitch) == 4 * x + c
    ensures !IsPadding(MappedOffset(x, y, z, c, rowPitch, slicePitch), vs, rowPitch, slicePitch)
  {
    RowInSlice(y, z, vs, rowPitch, slicePitch);
    TexelOffset(MappedOffset(x, y, z, c, rowPitch, slicePitch), z, y, vs, rowPitch, slicePitch);
  }

  /** With the row start of the voxel layout, byte c of voxel (x, y, z) lands at
      z * SlicePitch + y * RowPitch + 4 * x + c. */
  lemma UploadPlacesVoxels(data: seq<byte>, vs: nat, rowPitch: nat, slicePitch: nat,
                           before: byte, x: nat, y: nat, z: nat, c: nat)
    requires ValidVolume(vs) && |data| == VolumeBytes(vs) && Pitches(vs, rowPitch, slicePitch)
    requires x < vs && y < vs && z < vs && c < 4
    ensures RowsInData(SourceRows(vs), vs, |data|)
    ensures MappedOffset(x, y, z, c, rowPitch, slicePitch) < slicePitch * vs
    ensures VoxelIndex(x, y, z, vs) * 4 + c < |data|
    ensures UploadedByte(data, vs, rowPitch, slicePitch, SourceRows(vs), before, MappedOffset(x, y, z, c, rowPitch, slicePitch))
            == data[VoxelIndex(x, y, z, vs) * 4 + c]
  {
    RowStartsInData(vs);
    VoxelInVolume(x, y, z, vs);
    TexelInTexture(vs, rowPitch, slicePitch, x, y, z, c);
    VoxelByteUploaded(data, vs, rowPitch, slicePitch, before, x, y, z, c,
                      MappedOffset(x, y, z, c, rowPitch, slicePitch), VoxelIndex(x, y, z, vs) * 4 + c);
  }

  /** UploadPlacesVoxels with the texture offset i and the buffer offset b named. */
  lemma VoxelByteUploaded(data: seq<byte>, vs: nat, rowPitch: nat, slicePitch: nat,
                          before: byte, x: nat, y: nat, z: nat, c: nat, i: nat, b: nat)
    requires Pitches(vs, rowPitch, slicePitch) && RowsInData(SourceRows(vs), vs, |data|)
    requires x < vs && y < vs && z < vs && c < 4
    requires i == MappedOffset(x, y, z, c, rowPitch, slicePitch) && i < slicePitch * vs
    requires b == VoxelIndex(x, y, z, vs) * 4 + c && b < |data|
    ensures UploadedByte(data, vs, rowPitch, slicePitch, SourceRows(vs), before, i) == data[b]
  {
    assert !IsPadding(i, vs, rowPitch, slicePitch) &&
           SliceOf(i, slicePitch) == z && RowOf(i, rowPitch, slicePitch) == y &&
           ColumnOf(i, rowPitch, slicePitch) == 4 * x + c by {
      TexelInTexture(vs, rowPitch, slicePitch, x, y, z, c);
    }
    UploadedAt(data, vs, rowPitch, slicePitch, SourceRows(vs), before, i, z, y, 4 * x + c);
    SourceRowOffset(vs, x, y, z, c);
  }

  /** Byte 4 * x + c of row (z, y) is byte c of voxel (x, y, z). */
  lemma SourceRowOffset(vs: nat, x: nat, y: nat, z: nat, c: nat)
    ensures SourceRows(vs)(z, y) + (4 * x + c) == VoxelIndex(x, y, z, vs) * 4 + c
  {
  }

  /** The uploaded byte at an offset known to be column k of row y of slice z. */
  lemma UploadedAt(data: seq<byte>, vs: nat, rowPitch: nat, slicePitch: nat,
                   rowStart: (nat, nat) -> nat, before: byte, i: nat, z: nat, y: nat, k: nat)
    requires Pitches(vs, rowPitch, slicePitch) && i < slicePitch * vs
    requires RowsInData(rowStart, vs, |data|) && !IsPadding(i, vs, rowPitch, slicePitch)
    requires SliceOf(i, slicePitch) == z && RowOf(i, rowPitch, slicePitch) == y && ColumnOf(i, rowPitch, slicePitch) == k
    ensures rowStart(z, y) + k < |data|
    ensures UploadedByte(data, vs, rowPitch, slicePitch, rowStart, before, i) == data[rowStart(z, y) + k]
  {
    TexelSourceInData(data, vs, rowPitch, slicePitch, rowStart, i);
  }

  /** Line 125 as written copies row (z, y) from byte (z * vs + y) * vs, which for
      every row but the first lies before the row's voxels: all rows together read
      only the first vs^3 + 3 * vs bytes, so for vs >= 2 the last voxels never
      reach the texture. */
  lemma UploadAsWrittenMisplacesRows(vs: nat, z: nat, y: nat)
    requires ValidVolume(vs) && z < vs && y < vs
    ensures SourceRowAsWritten(z, y, vs) + 4 * vs <= vs * vs * vs + 3 * vs
    ensures vs >= 2 ==> vs * vs * vs + 3 * vs < VolumeBytes(vs)
    ensures (z, y) != (0, 0) ==> SourceRowAsWritten(z, y, vs) < SourceRow(z, y, vs)
  {
    assert VoxelIndex(0, y, z, vs) <= vs * vs * vs - vs by {
      VoxelInVolume(vs - 1, y, z, vs);
    }
    if vs >= 2 {
      assert vs * vs * vs >= vs * 2 by { MulMonotone(2, vs * vs, vs); MulMonotone(1, vs, vs); }
    }
  }

  /** The smallest volume that shows it: with vs = 2, texel (0, 1, 0), byte 8 of
      the texture, receives buffer byte 2, channel 2 of voxel 0, where the voxel
      layout puts byte 8, channel 0 of voxel 2. */
  lemma UploadAsWrittenCounterexample(data: seq<byte>, before: byte)
    requires |data| == VolumeBytes(2)
    ensures RowsInData(SourceRowsAsWritten(2), 2, |data|) && RowsInData(SourceRows(2), 2, |data|)
    ensures UploadedByte(data, 2, 8, 16, SourceRowsAsWritten(2), before, 8) == data[2]
    ensures UploadedByte(data, 2, 8, 16, SourceRows(2), before, 8) == data[8]
  {
    RowStartsInData(2);
    TexelOffset(8, 0, 1, 2, 8, 16);
  }

  // ---------------------------------------------------------------------------
  // The whole of CreateNoiseVolume

  /** The buffer after the random fill of a zero-initialised vector. */
  function Filled(noise: seq<byte>): (r: seq<byte>)
    ensures |r| == 4 * |noise|
    ensures forall i :: 0 <= i < |r| && i % 4 != 3 ==> r[i] == 0
  {
    seq(4 * |noise|, i requires 0 <= i < 4 * |noise| => FilledByte(noise, i))
  }

  /** Channel 3 of voxel v after the random fill is the v-th draw. */
  lemma FilledAlpha(noise: seq<byte>, v: nat)
    requires v < |noise|
    ensures Filled(noise)[v * 4 + 3] == noise[v]
  {
    DivModUnique(v * 4 + 3, 4, v, 3);
  }

  /** The buffer after both loops. */
  function NoiseBuffer(noise: seq<byte>, vs: nat, encode: Encoder): (r: seq<byte>)
    requires ValidVolume(vs) && 4 * |noise| == VolumeBytes(vs)
    ensures |r| == VolumeBytes(vs)
    ensures SameDensities(r, Filled(noise))
  {
    seq(VolumeBytes(vs), i requires 0 <= i < VolumeBytes(vs) => EncodedByte(Filled(noise), vs, encode, i))
  }

  /** The size of the mapped texture: vs slices of slicePitch bytes. */
  function TextureBytes(vs: nat, slicePitch: nat): nat { slicePitch * vs }

  /** CreateNoiseVolume(vol_size): a zeroed buffer of vs^3 RGBA8 voxels; random
      densities into channel 3; encoded normals into channels 0..2; the rows
      copied into a freshly mapped vs^3 texture. The mapped memory starts out
      zeroed here, which only decides the padding bytes. */
  method CreateNoiseVolume(vs: nat, noise: seq<byte>, encode: Encoder, rowPitch: nat, slicePitch: nat)
    returns (tex: array<byte>)
    requires ValidVolume(vs) && 4 * |noise| == VolumeBytes(vs) && Pitches(vs, rowPitch, slicePitch)
    ensures fresh(tex) && tex.Length == slicePitch * vs
    ensures RowsInData(SourceRows(vs), vs, VolumeBytes(vs))
    ensures forall i :: 0 <= i < tex.Length ==>
      tex[i] == UploadedByte(NoiseBuffer(noise, vs, encode), vs, rowPitch, slicePitch, SourceRows(vs), 0, i)
  {
    var data := new byte[VolumeBytes(vs)](_ => 0);
    FillDensities(data, noise);
    assert data[..] == Filled(noise);
    EncodeNormals(data, vs, encode);
    assert data[..] == NoiseBuffer(noise, vs, encode);
    tex := new byte[TextureBytes(vs, slicePitch)](_ => 0);
    RowStartsInData(vs);
    UploadVolume(data[..], vs, rowPitch, slicePitch, SourceRows(vs), tex);
  }

  /** What the texture holds: at z * SlicePitch + y * RowPitch + 4 * x, the
      voxel's encoded normal in bytes 0..2 (z, y, x components of the clamped
      encoding) and its random density in byte 3. */
  lemma NoiseVolumeTexel(noise: seq<byte>, vs: nat, encode: Encoder, rowPitch: nat, slicePitch: nat,
                         x: nat, y: nat, z: nat, c: nat)
    requires ValidVolume(vs) && 4 * |noise| == VolumeBytes(vs) && Pitches(vs, rowPitch, slicePitch)
    requires x < vs && y < vs && z < vs && c < 4
    ensures RowsInData(SourceRows(vs), vs, VolumeBytes(vs))
    ensures MappedOffset(x, y, z, c, rowPitch, slicePitch) < slicePitch * vs
    ensures VoxelIndex(x, y, z, vs) < |noise|
    ensures c == 3 ==> UploadedByte(NoiseBuffer(noise, vs, encode), vs, rowPitch, slicePitch, SourceRows(vs), 0,
                                    MappedOffset(x, y, z, c, rowPitch, slicePitch)) == noise[VoxelIndex(x, y, z, vs)]
    ensures c < 3 ==> UploadedByte(NoiseBuffer(noise, vs, encode), vs, rowPitch, slicePitch, SourceRows(vs), 0,
                                   MappedOffset(x, y, z, c, rowPitch, slicePitch)) == NormalByte(Filled(noise), vs, encode, x, y, z, c)
  {
    var buf := NoiseBuffer(noise, vs, encode);
    var v := VoxelIndex(x, y, z, vs);
    VoxelInVolume(x, y, z, vs);
    UploadPlacesVoxels(buf, vs, rowPitch, slicePitch, 0, x, y, z, c);
    assert buf[v * 4 + c] == EncodedByte(Filled(noise), vs, encode, v * 4 + c);
    EncodedKeepsAlpha(Filled(noise), vs, encode, x, y, z, c);
    if c == 3 {
      FilledAlpha(noise, v);
    }
  }
}
