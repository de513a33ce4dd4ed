/**
 Sequences of calls on one envelope follower: `reset`, `setParameters` and
 `processAudioSample` in any order, and what every such sequence keeps.
 */
module Lifecycle {
  import opened FloatCompare
  import opened Parameters
  import opened Components
  import opened EnvelopeFollower

  datatype Call =
    | ResetCall(sampleRate: real)
    | SetParametersCall(params: AutoQParameters)
    | ProcessCall(xn: real)

  /** The follower after one call (the call's return value is dropped). */
  function Step(dsp: Dsp, s: Follower, c: Call): Follower
  {
    match c
    case ResetCall(rate) => Reset(dsp, s, rate).0
    case SetParametersCall(p) => SetParameters(s, p)
    case ProcessCall(xn) => ProcessAudioSample(dsp, s, xn).0
  }

  /** The follower after the calls, first to last. */
  function Run(dsp: Dsp, s: Follower, calls: seq<Call>): Follower
    decreases |calls|
  {
    if |calls| == 0 then s else Run(dsp, Step(dsp, s, calls[0]), calls[1..])
  }

  /** The record of the last `setParameters` among the calls, or `current` if there is none. */
  function LastSet(calls: seq<Call>, current: AutoQParameters): AutoQParameters
    decreases |calls|
  {
    if |calls| == 0 then current
    else LastSet(calls[1..], if calls[0].SetParametersCall? then calls[0].params else current)
  }

  /** `getParameters` returns the record of the last `setParameters`, whatever else was called. */
  lemma {:induction false} RunReadsBackLastSet(dsp: Dsp, s: Follower, calls: seq<Call>)
    ensures GetParameters(Run(dsp, s, calls)) == LastSet(calls, s.parameters)
    decreases |calls|
  {
    if |calls| > 0 {
      RunReadsBackLastSet(dsp, Step(dsp, s, calls[0]), calls[1..]);
    }
  }

  /**
   The components agree with the stored record, cutoff aside (processing
   moves the filter's cutoff on purpose): the filter has the record's
   algorithm and flags and its Q and output gain within FLT_EPSILON, and the
   detector its attack and release times within FLT_EPSILON.
   */
  ghost predicate Coherent(s: Follower)
  {
    && FilterHolds(s.filter.params.(fc := s.parameters.fc), s.parameters)
    && !DetectorParametersUpdated(s.detector.params, s.parameters)
  }

  /** Every `setParameters` leaves the follower coherent, whatever it was before. */
  lemma SetParametersMakesCoherent(s: Follower, p: AutoQParameters)
    ensures Coherent(SetParameters(s, p))
  {
  }

  lemma StepPreservesCoherent(dsp: Dsp, s: Follower, c: Call)
    requires Coherent(s)
    ensures Coherent(Step(dsp, s, c))
  {
  }

  /** Once coherent, a follower stays coherent under any sequence of calls. */
  lemma {:induction false} RunPreservesCoherent(dsp: Dsp, s: Follower, calls: seq<Call>)
    requires Coherent(s)
    ensures Coherent(Run(dsp, s, calls))
    decreases |calls|
  {
    if |calls| > 0 {
      StepPreservesCoherent(dsp, s, calls[0]);
      RunPreservesCoherent(dsp, Step(dsp, s, calls[0]), calls[1..]);
    }
  }

  /**
   No call ever changes the detector's mode, dB output or clamp flag, nor the
   filter fields the follower does not manage.
   */
  lemma {:induction false} RunKeepsUnmanagedSettings(dsp: Dsp, s: Follower, calls: seq<Call>)
    ensures var s' := Run(dsp, s, calls);
      && s'.detector.params.detectMode == s.detector.params.detectMode
      && s'.detector.params.detectDb == s.detector.params.detectDb
      && s'.detector.params.clampToUnityMax == s.detector.params.clampToUnityMax
      && s'.filter.params.unmanaged == s.filter.params.unmanaged
    decreases |calls|
  {
    if |calls| > 0 {
      RunKeepsUnmanagedSettings(dsp, Step(dsp, s, calls[0]), calls[1..]);
    }
  }

  /** The detector stays in RMS mode with dB output and no clamp over the follower's whole life. */
  lemma ConstructedDetectorStaysConfigured(dsp: Dsp, freshFilter: Filter, filterDefaults: FilterParameters,
                                           freshDetector: Detector, calls: seq<Call>)
    ensures DetectorAsConstructed(Run(dsp, Construct(freshFilter, filterDefaults, freshDetector), calls).detector.params)
  {
    RunKeepsUnmanagedSettings(dsp, Construct(freshFilter, filterDefaults, freshDetector), calls);
  }

  /**
   After a `reset`, filter and detector run at the same sample rate, and
   they keep doing so whatever follows.
   */
  lemma {:induction false} RunKeepsSampleRatesEqual(dsp: Dsp, s: Follower, calls: seq<Call>)
    requires s.filter.sampleRate == s.detector.sampleRate
    ensures Run(dsp, s, calls).filter.sampleRate == Run(dsp, s, calls).detector.sampleRate
    decreases |calls|
  {
    if |calls| > 0 {
      RunKeepsSampleRatesEqual(dsp, Step(dsp, s, calls[0]), calls[1..]);
    }
  }

  /**
   The constructed follower agrees with its default record except possibly
   in Q and output gain, which the constructor leaves at the filter's own
   defaults. When those are within FLT_EPSILON of 0.707 and 0 dB, the
   follower is coherent from the start and the first `setParameters` of the
   default record pushes nothing to either component.
   */
  lemma ConstructedFollowerAgreesWithDefaults(freshFilter: Filter, filterDefaults: FilterParameters,
                                              freshDetector: Detector)
    ensures var s := Construct(freshFilter, filterDefaults, freshDetector);
      Coherent(s) <==> IsFloatEqual(filterDefaults.q, 0.707) && IsFloatEqual(filterDefaults.filterOutputGainDb, 0.0)
    ensures var s := Construct(freshFilter, filterDefaults, freshDetector);
      IsFloatEqual(filterDefaults.q, 0.707) && IsFloatEqual(filterDefaults.filterOutputGainDb, 0.0)
      ==> SetParameters(s, DefaultParameters()) == s
  {
  }
}
