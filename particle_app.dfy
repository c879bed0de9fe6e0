/** GPUParticleSystemApp::DoUpdate: the per-frame pass state machine of the
    sample. The framework calls it with pass 0, 1, 2, ... until a pass reports
    Finished. Pass 0 draws the terrain into the scene buffer, pass 1 advances the
    particle simulation and draws the particles into the fog buffer, and the
    final pass blends the result to the screen. The render engine is not
    modelled: binding a frame buffer and clearing it are recorded in fields. */
module ParticleApp {
  import opened ParticleGrid
  import opened ParticleSystems

  /** The frame buffer bound by a pass: the default (screen) one, scene_buffer_ or fog_buffer_. */
  datatype Target = Screen | SceneBuffer | FogBuffer

  /** The two URV_* flags a pass can return. */
  datatype UpdateResult = UpdateResult(needFlush: bool, finished: bool)

  /** The clear colours: the sky blue of passes 0 and 2, transparent black for the fog buffer. */
  const SkyColor: Float4 := Float4(0.2, 0.4, 0.6, 1.0)
  const Transparent: Float4 := Float4(0.0, 0.0, 0.0, 0.0)

  /** The index of the last pass: every pass from here on is the blend pass. */
  const FinalPass: nat := 2

  /** What DoUpdate returns for a pass. */
  function PassResult(pass: nat): (r: UpdateResult)
    ensures r.needFlush
    ensures r.finished <==> pass >= FinalPass
  {
    if pass == 0 || pass == 1 then UpdateResult(true, false) else UpdateResult(true, true)
  }

  /** The visibility of the terrain and the particles during a pass. */
  function PassVisibility(pass: nat): (v: (bool, bool))
    ensures v.0 <==> pass == 0
    ensures v.1 <==> pass == 1
    ensures !(v.0 && v.1)
  {
    if pass == 0 then (true, false) else if pass == 1 then (false, true) else (false, false)
  }

  /** The frame buffer a pass binds, and the colour it clears it to. */
  function PassTarget(pass: nat): (t: (Target, Float4))
    ensures pass == 0 ==> t == (SceneBuffer, SkyColor)
    ensures pass == 1 ==> t == (FogBuffer, Transparent)
    ensures pass >= FinalPass ==> t == (Screen, SkyColor)
  {
    if pass == 0 then (SceneBuffer, SkyColor)
    else if pass == 1 then (FogBuffer, Transparent)
    else (Screen, SkyColor)
  }

  /** Over passes 0, 1, 2, ..., the first one to report Finished is pass 2, so a
      frame runs exactly three passes and only pass 1 steps the simulation. */
  lemma FrameRunsThreePasses(n: nat)
    ensures (forall p: nat :: p < n ==> !PassResult(p).finished) <==> n <= FinalPass
    ensures PassResult(FinalPass).finished
  {
    if n > FinalPass {
      assert PassResult(FinalPass).finished;
    }
  }

  class GpuParticleSystemApp {
    /** gpu_ps */
    const ps: GpuParticleSystem
    /** terrain_->Visible() and particles_->Visible() */
    var terrainVisible: bool
    var particlesVisible: bool
    /** The frame buffer bound to the render engine and the colour it was last cleared to. */
    var bound: Target
    var clearColor: Float4
    /** The position texture handed to the particles object (null before pass 1 first runs). */
    var particlesPosTex: array?<Float4>

    ghost predicate Valid()
      reads this, ps
    {
      ps.Valid() && ps.emitting
    }

    /** The state InitObjects leaves: an emitting particle system, nothing bound yet. */
    constructor (gpuPs: GpuParticleSystem)
      requires gpuPs.Valid() && gpuPs.emitting
      ensures Valid() && ps == gpuPs
      ensures bound == Screen && particlesPosTex == null
    {
      ps := gpuPs;
      terrainVisible := true;
      particlesVisible := true;
      bound := Screen;
      clearColor := SkyColor;
      particlesPosTex := null;
    }

    /** DoUpdate(pass), with the timer's elapsed seconds as a parameter. */
    method DoUpdate(pass: nat, elapsed: real) returns (r: UpdateResult)
      requires Valid() && elapsed >= 0.0
      modifies this, ps
      ensures Valid()
      ensures r == PassResult(pass)
      ensures (terrainVisible, particlesVisible) == PassVisibility(pass)
      ensures (bound, clearColor) == PassTarget(pass)
      ensures pass != 1 ==> ps.rtIndex == old(ps.rtIndex) && ps.accumulateTime == old(ps.accumulateTime)
      ensures pass != 1 ==> particlesPosTex == old(particlesPosTex)
      ensures pass == 1 ==> ps.rtIndex == !old(ps.rtIndex)
      ensures pass == 1 ==> ps.accumulateTime == Advance(old(ps.accumulateTime), elapsed, ps.Bound())
      ensures pass == 1 ==> particlesPosTex == ps.PosTexture() && particlesPosTex == ps.PosAt(old(ps.rtIndex))
      ensures ps.invEmitFreq == old(ps.invEmitFreq)
    {
      if pass == 0 {
        bound := SceneBuffer;
        clearColor := SkyColor;
        terrainVisible := true;
        particlesVisible := false;
        r := UpdateResult(true, false);
      } else if pass == 1 {
        terrainVisible := false;
        particlesVisible := true;
        var _ := ps.Update(elapsed);
        particlesPosTex := ps.PosTexture();
        bound := FogBuffer;
        clearColor := Transparent;
        r := UpdateResult(true, false);
      } else {
        terrainVisible := false;
        particlesVisible := false;
        bound := Screen;
        clearColor := SkyColor;
        r := UpdateResult(true, true);
      }
    }
  }

  /** One frame as the framework drives it: passes 0, 1 and 2. The simulation
      advances exactly once, the particles then sample the generation that
      update wrote, and the frame ends on the screen with nothing visible. */
  method RunFrame(app: GpuParticleSystemApp, elapsed: real) returns (results: seq<UpdateResult>)
    requires app.Valid() && elapsed >= 0.0
    modifies app, app.ps
    ensures app.Valid()
    ensures |results| == 3 && results[2].finished && !results[0].finished && !results[1].finished
    ensures app.ps.rtIndex == !old(app.ps.rtIndex)
    ensures app.ps.accumulateTime == Advance(old(app.ps.accumulateTime), elapsed, app.ps.Bound())
    ensures app.particlesPosTex == app.ps.PosTexture()
    ensures app.bound == Screen && !app.terrainVisible && !app.particlesVisible
  {
    var r0 := app.DoUpdate(0, elapsed);
    var r1 := app.DoUpdate(1, elapsed);
    var r2 := app.DoUpdate(2, elapsed);
    results := [r0, r1, r2];
  }
}
