/** ConfirmDevice: the sample's gate on the render device. It asks for shader
    model 3 and two simultaneous render targets, then tries to create a 256x256
    ABGR32F texture with a render view and a 256x256 R32F texture with a render
    view; any of the four calls throwing rejects the device. The render factory
    is not modelled: whether each of the four calls would succeed is an input. */
module DeviceCaps {
  /** The two fields of RenderDeviceCaps the gate reads. */
  datatype Caps = Caps(maxShaderModel: int, maxSimultaneousRts: int)

  /** Whether each trial call returns normally, in the order they are made. */
  datatype Trials = Trials(abgr32fTexture: bool, abgr32fView: bool, r32fTexture: bool, r32fView: bool)

  /** The answer, and how many trial calls were made before it was given. */
  datatype Verdict = Verdict(accepted: bool, callsMade: nat)

  const MinShaderModel: int := 3
  const MinRenderTargets: int := 2

  predicate CapsSuffice(caps: Caps) {
    caps.maxShaderModel >= MinShaderModel && caps.maxSimultaneousRts >= MinRenderTargets
  }

  /** The trial outcomes in call order. */
  function Outcomes(t: Trials): (s: seq<bool>)
    ensures |s| == 4
  {
    [t.abgr32fTexture, t.abgr32fView, t.r32fTexture, t.r32fView]
  }

  /** The number of calls that succeed before the first one that throws. */
  function LeadingSuccesses(s: seq<bool>): (n: nat)
    ensures n <= |s|
  {
    if s == [] || !s[0] then 0 else 1 + LeadingSuccesses(s[1..])
  }

  /** The two capability checks, then the four trial calls inside one try block:
      the first call that throws ends the block and rejects the device. */
  function ConfirmDevice(caps: Caps, t: Trials): (v: Verdict)
    ensures v.accepted <==> CapsSuffice(caps) && t.abgr32fTexture && t.abgr32fView && t.r32fTexture && t.r32fView
    ensures !CapsSuffice(caps) ==> v.callsMade == 0
    ensures CapsSuffice(caps) ==> 1 <= v.callsMade <= 4
    ensures v.accepted ==> v.callsMade == 4
  {
    if caps.maxShaderModel < MinShaderModel then Verdict(false, 0)
    else if caps.maxSimultaneousRts < MinRenderTargets then Verdict(false, 0)
    else if !t.abgr32fTexture then Verdict(false, 1)
    else if !t.abgr32fView then Verdict(false, 2)
    else if !t.r32fTexture then Verdict(false, 3)
    else if !t.r32fView then Verdict(false, 4)
    else Verdict(true, 4)
  }

  /** Once the capabilities pass, the calls stop right after the first failure:
      the gate makes one call more than the leading run of successes, and all
      four when there is no failure. */
  lemma CallsStopAtFirstFailure(caps: Caps, t: Trials)
    requires CapsSuffice(caps)
    ensures ConfirmDevice(caps, t).callsMade ==
            (if LeadingSuccesses(Outcomes(t)) == 4 then 4 else LeadingSuccesses(Outcomes(t)) + 1)
    ensures ConfirmDevice(caps, t).accepted <==> LeadingSuccesses(Outcomes(t)) == 4
  {
    var s := Outcomes(t);
    assert s[1..] == [t.abgr32fView, t.r32fTexture, t.r32fView];
    assert s[1..][1..] == [t.r32fTexture, t.r32fView];
    assert s[1..][1..][1..] == [t.r32fView];
    assert s[1..][1..][1..][1..] == [];
    var n3 := LeadingSuccesses(s[1..][1..][1..]);
    assert n3 == if t.r32fView then 1 else 0;
    var n2 := LeadingSuccesses(s[1..][1..]);
    assert n2 == if t.r32fTexture then 1 + n3 else 0;
    var n1 := LeadingSuccesses(s[1..]);
    assert n1 == if t.abgr32fView then 1 + n2 else 0;
    assert LeadingSuccesses(s) == if t.abgr32fTexture then 1 + n1 else 0;
  }

  /** A device with at least the capabilities of an accepted one, on which the
      same calls succeed, is accepted too. */
  lemma AcceptanceMonotone(caps: Caps, better: Caps, t: Trials)
    requires ConfirmDevice(caps, t).accepted
    requires better.maxShaderModel >= caps.maxShaderModel && better.maxSimultaneousRts >= caps.maxSimultaneousRts
    ensures ConfirmDevice(better, t).accepted
  {
  }
}
