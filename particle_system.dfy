/** GPUParticleSystem: the host side of the GPU particle simulation. Two
    generations of position and velocity textures form a ping-pong pair; the
    single flag rtIndex names the generation the next Update renders into, and
    the other one is the generation read. Textures are flat arrays of texels
    with a row pitch; the simulation draw itself runs on the GPU and is not
    modelled (Update binds its targets and inputs and records them). */
module ParticleSystems {
  import opened ParticleGrid

  /** What one Update hands to the GPU: the generation bound as render target,
      the generation bound to the position and velocity samplers, and the two
      time parameters of the update shader. */
  datatype SimPass = SimPass(target: bool, source: bool, accumulateTime: real, elapseTime: real)

  class GpuParticleSystem {
    const maxParticles: nat
    const texHeight: nat
    /** Row pitch, in texels, of the mapped position textures and of the birth-time texture. */
    const posPitch: nat
    const birthPitch: nat

    /** particle_pos_texture_[0..1] and particle_vel_texture_[0..1]. */
    const pos0: array<Float4>
    const pos1: array<Float4>
    const vel0: array<Float4>
    const vel1: array<Float4>
    /** particle_birth_time_ */
    const birth: array<real>

    var rtIndex: bool
    var accumulateTime: real
    var invEmitFreq: real
    /** Whether AutoEmit has run, so that inv_emit_freq_ holds a value. */
    var emitting: bool

    ghost predicate Valid()
      reads this
    {
      maxParticles > 0 && texHeight == TexHeight(maxParticles) &&
      posPitch >= TexWidth && birthPitch >= TexWidth &&
      pos0.Length == texHeight * posPitch && pos1.Length == texHeight * posPitch &&
      vel0.Length == texHeight * posPitch && vel1.Length == texHeight * posPitch &&
      birth.Length == texHeight * birthPitch &&
      pos0 != pos1 && vel0 != vel1 && pos0 != vel0 && pos0 != vel1 && pos1 != vel0 && pos1 != vel1 &&
      accumulateTime >= 0.0 &&
      (emitting ==> invEmitFreq > 0.0)
    }

    /** particle_pos_texture_[g], indexing the pair with a bool as the source does. */
    function PosAt(g: bool): array<Float4>
      reads this
    {
      if g then pos1 else pos0
    }

    function VelAt(g: bool): array<Float4>
      reads this
    {
      if g then vel1 else vel0
    }

    /** PosTexture(): one of the two position generations, and never the one
        the next Update renders into (rtIndex) while the two are distinct. */
    function PosTexture(): (t: array<Float4>)
      reads this
      ensures t == pos0 || t == pos1
      ensures pos0 != pos1 ==> t != PosAt(rtIndex)
    {
      PosAt(!rtIndex)
    }

    /** VelTexture(): likewise for the two velocity generations. */
    function VelTexture(): (t: array<Float4>)
      reads this
      ensures t == vel0 || t == vel1
      ensures vel0 != vel1 ==> t != VelAt(rtIndex)
    {
      VelAt(!rtIndex)
    }

    /** max_num_particles_ * inv_emit_freq_, the length of one emission cycle. */
    function Bound(): real
      reads this
    {
      CycleLength(maxParticles, invEmitFreq)
    }

    /** The constructor: a grid of 256 columns and ceil(max / 256) rows, both
        position generations filled with the sentinel, rtIndex true and the
        accumulator at 0. */
    constructor (maxNumParticles: nat, posRowPitch: nat, birthRowPitch: nat)
      requires maxNumParticles > 0
      requires posRowPitch >= TexWidth && birthRowPitch >= TexWidth
      ensures Valid()
      ensures maxParticles == maxNumParticles && texHeight == TexHeight(maxNumParticles)
      ensures posPitch == posRowPitch && birthPitch == birthRowPitch
      ensures fresh(pos0) && fresh(pos1) && fresh(vel0) && fresh(vel1) && fresh(birth)
      ensures forall i :: 0 <= i < pos0.Length && i % posPitch < TexWidth ==> pos0[i] == Sentinel
      ensures forall i :: 0 <= i < pos1.Length && i % posPitch < TexWidth ==> pos1[i] == Sentinel
      ensures rtIndex && accumulateTime == 0.0 && !emitting
    {
      var h := TexHeight(maxNumParticles);
      maxParticles := maxNumParticles;
      texHeight := h;
      posPitch := posRowPitch;
      birthPitch := birthRowPitch;
      pos0 := new Float4[h * posRowPitch];
      pos1 := new Float4[h * posRowPitch];
      vel0 := new Float4[h * posRowPitch];
      vel1 := new Float4[h * posRowPitch];
      birth := new real[h * birthRowPitch];
      rtIndex := true;
      accumulateTime := 0.0;
      invEmitFreq := 0.0;
      emitting := false;
      new;
      for i := 0 to 2
        invariant rtIndex && accumulateTime == 0.0 && !emitting
        invariant i >= 1 ==> forall k :: 0 <= k < pos0.Length && k % posPitch < TexWidth ==> pos0[k] == Sentinel
        invariant i >= 2 ==> forall k :: 0 <= k < pos1.Length && k % posPitch < TexWidth ==> pos1[k] == Sentinel
      {
        FillSentinel(if i == 0 then pos0 else pos1, texHeight, posPitch);
      }
    }

    /** AutoEmit(freq): inv_emit_freq_ = 1 / freq, and texel (x, y) of the
        birth-time texture gets the running time of its row-major slot; the
        row-pitch padding is left alone. */
    method AutoEmit(freq: real)
      requires Valid() && freq > 0.0
      modifies this, birth
      ensures Valid() && emitting && invEmitFreq == 1.0 / freq
      ensures rtIndex == old(rtIndex) && accumulateTime == old(accumulateTime)
      ensures forall i :: 0 <= i < birth.Length ==>
        birth[i] == (if i % birthPitch < TexWidth
                     then TexelBirthTime(i, birthPitch, invEmitFreq)
                     else old(birth[i]))
    {
      invEmitFreq := 1.0 / freq;
      emitting := true;
      FillBirthTimes(birth, texHeight, birthPitch, invEmitFreq);
    }

    /** Update(elapse_time): bind generation rtIndex as the render target, advance
        the accumulator (reset to 0 at the cycle bound), sample the other
        generation, draw, and flip rtIndex, so that PosTexture()/VelTexture()
        then give the generation just written. */
    method Update(elapseTime: real) returns (pass: SimPass)
      requires Valid() && emitting && elapseTime >= 0.0
      modifies this
      ensures Valid() && emitting && invEmitFreq == old(invEmitFreq)
      ensures pass.target == old(rtIndex) && pass.source == !old(rtIndex)
      ensures PosAt(pass.target) != PosAt(pass.source) && VelAt(pass.target) != VelAt(pass.source)
      ensures accumulateTime == Advance(old(accumulateTime), elapseTime, Bound())
      ensures 0.0 <= accumulateTime < Bound()
      ensures pass.accumulateTime == accumulateTime && pass.elapseTime == elapseTime
      ensures rtIndex == !old(rtIndex)
      ensures PosTexture() == PosAt(pass.target) && VelTexture() == VelAt(pass.target)
    {
      var target := rtIndex;
      accumulateTime := accumulateTime + elapseTime;
      if accumulateTime >= maxParticles as real * invEmitFreq {
        accumulateTime := 0.0;
      }
      AdvanceStaysInCycle(old(accumulateTime), elapseTime, Bound());
      var source := !rtIndex;  // PosTexture() and VelTexture() before the flip
      pass := SimPass(target, source, accumulateTime, elapseTime);
      rtIndex := !rtIndex;
    }
  }

  /** A caller's view of the ping-pong pair: the first Update after construction
      writes generation 1 and reads generation 0, and two Updates restore the
      flag while writing the two generations in turn. */
  method TwoUpdates(ps: GpuParticleSystem, dt1: real, dt2: real) returns (first: SimPass, second: SimPass)
    requires ps.Valid() && ps.emitting && dt1 >= 0.0 && dt2 >= 0.0
    modifies ps
    ensures ps.rtIndex == old(ps.rtIndex)
    ensures first.target == second.source && second.target == first.source
    ensures old(ps.rtIndex) ==> ps.PosAt(first.target) == ps.pos1 && ps.PosAt(first.source) == ps.pos0
  {
    first := ps.Update(dt1);
    second := ps.Update(dt2);
  }
}
