/** The integer and time bookkeeping of the GPU particle system that the host does:
    the size of the particle state grid, the emission schedule written into the
    birth-time texture, the emission-cycle accumulator, and the texel fill loops
    over row-pitched texture memory. Float times are modelled as reals. */
module ParticleGrid {
  import opened Arithmetic

  /** tex_width_: every state texture has 256 columns. */
  const TexWidth: nat := 256

  /** One RGBA float texel. */
  datatype Float4 = Float4(x: real, y: real, z: real, w: real)

  /** The "unborn" position written into both position generations: (0, 0, 0, -1). */
  const Sentinel: Float4 := Float4(0.0, 0.0, 0.0, -1.0)

  /** tex_height_ of the simulation textures: (max + 255) / 256, the rounded-up row count. */
  function TexHeight(maxParticles: nat): (h: nat)
    ensures maxParticles <= h * TexWidth
    ensures maxParticles > 0 ==> h > 0
  {
    assert ((maxParticles + 255) / 256) * 256 + (maxParticles + 255) % 256 == maxParticles + 255;
    (maxParticles + 255) / TexWidth
  }

  /** tex_height_ of RenderParticles: max / 256, the rounded-down row count. */
  function RenderRows(maxParticles: nat): (r: nat)
    ensures r * TexWidth <= maxParticles < (r + 1) * TexWidth
  {
    maxParticles / TexWidth
  }

  /** The slot of texel (x, y), counted in row-major order. */
  function SlotIndex(x: nat, y: nat): nat { y * TexWidth + x }

  /** The birth time AutoEmit gives slot s: s steps of 1/freq from 0. */
  function BirthTime(slot: nat, invEmitFreq: real): (t: real)
    ensures slot == 0 ==> t == 0.0
    ensures invEmitFreq > 0.0 ==> t >= 0.0 && (t == 0.0 <==> slot == 0)
  {
    slot as real * invEmitFreq
  }

  /** The length of one emission cycle: max_num_particles_ * inv_emit_freq_. */
  function CycleLength(maxParticles: nat, invEmitFreq: real): real { maxParticles as real * invEmitFreq }

  /** The accumulator step of Update: add the elapsed time and reset to 0 at the cycle bound. */
  function Advance(acc: real, elapse: real, bound: real): (r: real)
    ensures bound > 0.0 && acc + elapse >= 0.0 ==> 0.0 <= r < bound
    ensures r == 0.0 || r == acc + elapse
  {
    if acc + elapse >= bound then 0.0 else acc + elapse
  }

  // ---------------------------------------------------------------------------
  // Grid sizing

  /** The simulation grid holds every particle and wastes less than one row. */
  lemma {:induction false} GridHoldsAll(m: nat)
    ensures TexHeight(m) * TexWidth >= m
    ensures TexHeight(m) * TexWidth < m + TexWidth
    ensures m > 0 ==> (TexHeight(m) - 1) * TexWidth < m
  {
    var h := TexHeight(m);
    assert h * 256 + (m + 255) % 256 == m + 255;
  }

  /** The rendering grid, sized with max / 256, agrees with the simulation grid
      exactly when max is a multiple of 256. */
  lemma RenderRowsMatchIff(m: nat)
    ensures RenderRows(m) == TexHeight(m) <==> m % TexWidth == 0
    ensures RenderRows(m) * TexWidth <= m
  {
    var q, r := m / 256, m % 256;
    assert m == q * 256 + r;
    if r == 0 {
      assert (m + 255) / 256 == q by { assert m + 255 == q * 256 + 255; }
    } else {
      assert (m + 255) / 256 == q + 1 by { assert m + 255 == (q + 1) * 256 + (r - 1); }
    }
  }

  /** With 300 particles the rendering grid has one row, 256 slots, while the
      simulation grid has two; with fewer than 256 particles it has none. */
  lemma RenderRowsTooShort(m: nat)
    requires 0 < m < TexWidth
    ensures RenderRows(300) * TexWidth < 300 && TexHeight(300) == 2 && RenderRows(300) == 1
    ensures RenderRows(m) == 0 && TexHeight(m) == 1
  {
  }

  /** The texel (x, y) with x < 256 is recovered from its slot index: the slot
      numbering is a bijection between texels and 0 .. 256 * height. */
  lemma SlotIndexBijective(x: nat, y: nat, h: nat)
    requires x < TexWidth && y < h
    ensures SlotIndex(x, y) < h * TexWidth
    ensures SlotIndex(x, y) / TexWidth == y && SlotIndex(x, y) % TexWidth == x
  {
    assert SlotIndex(x, y) < (y + 1) * 256;
  }

  /** Row-major order: the next texel on a row, and the first texel of the next row,
      are the next slot. */
  lemma SlotOrder(x: nat, y: nat)
    ensures x + 1 < TexWidth ==> SlotIndex(x + 1, y) == SlotIndex(x, y) + 1
    ensures SlotIndex(0, y + 1) == SlotIndex(TexWidth - 1, y) + 1
  {
  }

  // ---------------------------------------------------------------------------
  // Emission schedule

  /** Slot 0 is born at 0, each next slot 1/freq later, so birth times strictly increase. */
  lemma BirthTimeSchedule(s: nat, t: nat, inv: real)
    requires inv > 0.0
    ensures BirthTime(0, inv) == 0.0
    ensures BirthTime(s + 1, inv) == BirthTime(s, inv) + inv
    ensures s < t ==> BirthTime(s, inv) < BirthTime(t, inv)
  {
    if s < t {
      assert BirthTime(t, inv) - BirthTime(s, inv) == (t - s) as real * inv;
    }
  }

  /** Slots beyond max_num_particles (the padding of the last row) are born no
      earlier than the cycle bound; the others are born strictly before it. */
  lemma BirthTimeVersusCycle(m: nat, s: nat, inv: real)
    requires inv > 0.0
    ensures s >= m ==> BirthTime(s, inv) >= CycleLength(m, inv)
    ensures s < m ==> BirthTime(s, inv) < CycleLength(m, inv)
  {
    assert CycleLength(m, inv) - BirthTime(s, inv) == (m - s) as real * inv;
  }

  /** With 500 particles per second: slot 1 is born at 0.002 and slot 256, the
      first texel of row 1, at 0.512. */
  lemma BirthTimeAt500()
    ensures BirthTime(SlotIndex(1, 0), 1.0 / 500.0) == 0.002
    ensures BirthTime(SlotIndex(0, 1), 1.0 / 500.0) == 0.512
  {
  }

  // ---------------------------------------------------------------------------
  // Accumulator

  /** From a non-negative accumulator and elapsed time, Update leaves the
      accumulator in [0, bound); reaching the bound resets it to exactly 0 (the
      overshoot is dropped), and below it no time is lost. */
  lemma AdvanceStaysInCycle(acc: real, elapse: real, bound: real)
    requires acc >= 0.0 && elapse >= 0.0 && bound > 0.0
    ensures 0.0 <= Advance(acc, elapse, bound) < bound
    ensures acc + elapse >= bound <==> Advance(acc, elapse, bound) == 0.0 && acc + elapse > 0.0
    ensures acc + elapse < bound ==> Advance(acc, elapse, bound) == acc + elapse
  {
  }

  /** Advancing from 0 by exactly one cycle lands back on 0. */
  lemma AdvanceFullCycle(bound: real)
    requires bound > 0.0
    ensures Advance(0.0, bound, bound) == 0.0
    ensures Advance(0.0, bound / 2.0, bound) == bound / 2.0
  {
  }

  // ---------------------------------------------------------------------------
  // Texel fill loops over row-pitched memory

  /** The constructor's loop for one position generation: texel x < 256 of every
      row becomes the sentinel; the row-pitch padding past column 255 is not touched. */
  method FillSentinel(tex: array<Float4>, height: nat, pitch: nat)
    requires pitch >= TexWidth && tex.Length == height * pitch
    modifies tex
    ensures forall i :: 0 <= i < tex.Length ==>
      tex[i] == (if i % pitch < TexWidth then Sentinel else old(tex[i]))
  {
    var p := 0;  // pos_init, in texels from the start of the mapped surface
    for y := 0 to height
      invariant p == y * pitch
      invariant forall i :: 0 <= i < p ==> tex[i] == (if i % pitch < TexWidth then Sentinel else old(tex[i]))
      invariant forall i :: p <= i < tex.Length ==> tex[i] == old(tex[i])
    {
      RowBounds(y, pitch, height);
      for x := 0 to TexWidth
        invariant forall i :: 0 <= i < p ==> tex[i] == (if i % pitch < TexWidth then Sentinel else old(tex[i]))
        invariant forall i :: p <= i < p + x ==> tex[i] == Sentinel
        invariant forall i :: p + x <= i < tex.Length ==> tex[i] == old(tex[i])
      {
        tex[p + x] := Sentinel;
      }
      forall i | p <= i < p + pitch
        ensures i % pitch == i - p
      {
        ModInRow(i, y, pitch);
      }
      p := p + pitch;
    }
  }

  /** The birth time AutoEmit writes at offset i of a surface with the given pitch. */
  function TexelBirthTime(i: nat, pitch: nat, invEmitFreq: real): real
    requires pitch > 0
  {
    BirthTime(SlotIndex(i % pitch, i / pitch), invEmitFreq)
  }

  /** AutoEmit's loop: a running time, starting at 0 and growing by 1/freq per
      texel, is written to texel x < 256 of every row in row-major order; the
      row-pitch padding is not touched. */
  method FillBirthTimes(birth: array<real>, height: nat, pitch: nat, invEmitFreq: real)
    requires pitch >= TexWidth && birth.Length == height * pitch
    modifies birth
    ensures forall i :: 0 <= i < birth.Length ==>
      birth[i] == (if i % pitch < TexWidth then TexelBirthTime(i, pitch, invEmitFreq) else old(birth[i]))
  {
    var time := 0.0;
    var p := 0;  // birth_time_init, in texels from the start of the mapped surface
    for y := 0 to height
      invariant p == y * pitch
      invariant time == BirthTime(SlotIndex(0, y), invEmitFreq)
      invariant forall i :: 0 <= i < p ==>
        birth[i] == (if i % pitch < TexWidth then TexelBirthTime(i, pitch, invEmitFreq) else old(birth[i]))
      invariant forall i :: p <= i < birth.Length ==> birth[i] == old(birth[i])
    {
      RowBounds(y, pitch, height);
      time := FillBirthRow(birth, p, y, time, invEmitFreq);
      forall i | p <= i < p + pitch
        ensures i % pitch == i - p && i / pitch == y
      {
        ModInRow(i, y, pitch);
      }
      p := p + pitch;
    }
  }

  /** One row of AutoEmit's loop: texels p .. p + 256 get the birth times of
      slots (0, y) .. (255, y), and the running time ends at slot (0, y + 1). */
  method FillBirthRow(birth: array<real>, p: nat, y: nat, time0: real, invEmitFreq: real) returns (time: real)
    requires p + TexWidth <= birth.Length && time0 == BirthTime(SlotIndex(0, y), invEmitFreq)
    modifies birth
    ensures time == BirthTime(SlotIndex(0, y + 1), invEmitFreq)
    ensures forall i :: p <= i < p + TexWidth ==> birth[i] == BirthTime(SlotIndex(i - p, y), invEmitFreq)
    ensures forall i :: 0 <= i < birth.Length && !(p <= i < p + TexWidth) ==> birth[i] == old(birth[i])
  {
    time := time0;
    for x := 0 to TexWidth
      invariant time == BirthTime(SlotIndex(x, y), invEmitFreq)
      invariant forall i :: p <= i < p + x ==> birth[i] == BirthTime(SlotIndex(i - p, y), invEmitFreq)
      invariant forall i :: 0 <= i < birth.Length && !(p <= i < p + x) ==> birth[i] == old(birth[i])
    {
      birth[p + x] := time;
      BirthTimeStep(SlotIndex(x, y), invEmitFreq);
      time := time + invEmitFreq;
    }
  }

  lemma BirthTimeStep(s: nat, inv: real)
    ensures BirthTime(s + 1, inv) == BirthTime(s, inv) + inv
  {
  }
}
