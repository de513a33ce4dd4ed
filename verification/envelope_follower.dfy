/**
 `AutoQEnvelopeFollower`: a filter whose cutoff is driven by a detector.

 The follower keeps the last parameter record it was given and pushes the
 filter-related and detector-related parts of it down to its two components,
 but only when the component's own copy differs by the epsilon comparison.
 Per sample, it runs the detector and, when the detected level is above the
 threshold in linear terms, modulates the filter cutoff toward the maximum
 filter frequency by the excess; otherwise the filter gets the base cutoff.
 */
module EnvelopeFollower {
  import opened FloatCompare
  import opened Parameters
  import opened Components

  datatype Follower = Follower(parameters: AutoQParameters, filter: Filter, detector: Detector)

  /** The detector configuration the constructor installs. */
  predicate DetectorAsConstructed(d: DetectorParameters)
  {
    d.detectMode == Rms && d.detectDb && !d.clampToUnityMax
  }

  /**
   The constructor. `freshFilter` and `freshDetector` are the
   default-constructed components and `filterDefaults` a default-constructed
   `ZVAFilterParameters`, all declared outside this model. The filter gets
   the defaults with algorithm, cutoff and the four flags set; the detector
   gets a fully specified record.
   */
  function Construct(freshFilter: Filter, filterDefaults: FilterParameters, freshDetector: Detector): (s: Follower)
    ensures s.parameters == DefaultParameters()
    ensures DetectorAsConstructed(s.detector.params)
    ensures s.detector.params.attackTimeMs == 20.0 && s.detector.params.releaseTimeMs == 500.0
    ensures s.filter.params.filterAlgorithm == SvfLowPass && s.filter.params.fc == 1000.0
    ensures !s.filter.params.enableGainComp && s.filter.params.matchAnalogNyquistLpf
    ensures !s.filter.params.selfOscillate && s.filter.params.enableNlp
    // the constructor does not set Q, the output gain or anything else of the filter record
    ensures s.filter.params.q == filterDefaults.q
    ensures s.filter.params.filterOutputGainDb == filterDefaults.filterOutputGainDb
    ensures s.filter.params.unmanaged == filterDefaults.unmanaged
    // the constructed detector already agrees with the default parameter record
    ensures !DetectorParametersUpdated(s.detector.params, s.parameters)
    // only setParameters is called on the components: their rates and signal states are as constructed
    ensures s.filter.sampleRate == freshFilter.sampleRate && s.filter.state == freshFilter.state
    ensures s.detector.sampleRate == freshDetector.sampleRate && s.detector.state == freshDetector.state
  {
    var filterParams := filterDefaults.(filterAlgorithm := SvfLowPass, fc := 1000.0,
                                        enableGainComp := false, matchAnalogNyquistLpf := true,
                                        selfOscillate := false, enableNlp := true);
    var adParams := DetectorParameters(20.0, 500.0, Rms, true, false);
    Follower(DefaultParameters(), freshFilter.SetParameters(filterParams),
             freshDetector.SetParameters(adParams))
  }

  /**
   `reset`: both components are reset at the same sample rate, which
   restarts each one's signal state; the result is always true.
   */
  function Reset(dsp: Dsp, s: Follower, sampleRate: real): (r: (Follower, bool))
    ensures r.1
    ensures r.0.filter.sampleRate == sampleRate && r.0.detector.sampleRate == sampleRate
    ensures r.0.filter.state == dsp.filterResetState(s.filter.params, sampleRate)
    ensures r.0.detector.state == dsp.detectorResetState(s.detector.params, sampleRate)
    ensures r.0.parameters == s.parameters
    ensures r.0.filter.params == s.filter.params && r.0.detector.params == s.detector.params
  {
    (Follower(s.parameters, s.filter.Reset(dsp, sampleRate), s.detector.Reset(dsp, sampleRate)), true)
  }

  /**
   `getParameters`: the stored record, as it was given, not the filter's or
   the detector's copies (which processing and the epsilon test can leave
   different from it).
   */
  function GetParameters(s: Follower): AutoQParameters
  {
    s.parameters
  }

  /**
   `filterParametersUpdated`: some filter field of `p` differs from the
   filter's copy. Reals go through the epsilon comparison, and so does the
   gain-compensation flag, as a double.
   */
  predicate FilterParametersUpdated(fp: FilterParameters, p: AutoQParameters)
    // a difference in the algorithm or in a flag is always reported
    ensures fp.filterAlgorithm != p.filterAlgorithm || fp.enableGainComp != p.enableGainComp
         || fp.matchAnalogNyquistLpf != p.matchAnalogNyquistLpf || fp.enableNlp != p.enableNlp
         || fp.selfOscillate != p.selfOscillate
         ==> FilterParametersUpdated(fp, p)
    // a filter record that agrees exactly in the eight compared fields is never reported
    ensures fp.filterAlgorithm == p.filterAlgorithm && fp.fc == p.fc && fp.q == p.q
         && fp.enableGainComp == p.enableGainComp && fp.filterOutputGainDb == p.filterOutputGainDb
         && fp.matchAnalogNyquistLpf == p.matchAnalogNyquistLpf && fp.enableNlp == p.enableNlp
         && fp.selfOscillate == p.selfOscillate
         ==> !FilterParametersUpdated(fp, p)
  {
    BoolCompareIsExact(fp.enableGainComp, p.enableGainComp);
    || fp.filterAlgorithm != p.filterAlgorithm
    || !IsFloatEqual(fp.fc, p.fc)
    || !IsFloatEqual(fp.q, p.q)
    || !IsFloatEqual(BoolAsDouble(fp.enableGainComp), BoolAsDouble(p.enableGainComp))
    || !IsFloatEqual(fp.filterOutputGainDb, p.filterOutputGainDb)
    || fp.matchAnalogNyquistLpf != p.matchAnalogNyquistLpf
    || fp.enableNlp != p.enableNlp
    || fp.selfOscillate != p.selfOscillate
  }

  /**
   Reference definition of "the filter already holds `p`": the flags and the
   algorithm are equal, and each real is within FLT_EPSILON.
   */
  ghost predicate FilterHolds(fp: FilterParameters, p: AutoQParameters)
  {
    && fp.filterAlgorithm == p.filterAlgorithm
    && -FltEpsilon < fp.fc - p.fc < FltEpsilon
    && -FltEpsilon < fp.q - p.q < FltEpsilon
    && -FltEpsilon < fp.filterOutputGainDb - p.filterOutputGainDb < FltEpsilon
    && fp.enableGainComp == p.enableGainComp
    && fp.matchAnalogNyquistLpf == p.matchAnalogNyquistLpf
    && fp.enableNlp == p.enableNlp
    && fp.selfOscillate == p.selfOscillate
  }

  lemma FilterParametersUpdatedIffNotHeld(fp: FilterParameters, p: AutoQParameters)
    ensures FilterParametersUpdated(fp, p) <==> !FilterHolds(fp, p)
  {
  }

  /**
   `updateFilterParameters`: when nothing compared differs the filter is
   untouched; otherwise exactly the eight managed fields are overwritten.
   Either way the filter holds `p` afterwards.
   */
  function UpdateFilterParameters(f: Filter, p: AutoQParameters): (f': Filter)
    ensures !FilterParametersUpdated(f.params, p) ==> f' == f
    ensures FilterParametersUpdated(f.params, p) ==>
      && f'.params.filterAlgorithm == p.filterAlgorithm
      && f'.params.fc == p.fc
      && f'.params.q == p.q
      && f'.params.enableGainComp == p.enableGainComp
      && f'.params.filterOutputGainDb == p.filterOutputGainDb
      && f'.params.matchAnalogNyquistLpf == p.matchAnalogNyquistLpf
      && f'.params.enableNlp == p.enableNlp
      && f'.params.selfOscillate == p.selfOscillate
    ensures f'.params.unmanaged == f.params.unmanaged
    ensures f'.sampleRate == f.sampleRate && f'.state == f.state
    ensures !FilterParametersUpdated(f'.params, p)
  {
    var filterParams := f.params;
    if FilterParametersUpdated(filterParams, p) then
      var pushed := filterParams.(filterAlgorithm := p.filterAlgorithm, fc := p.fc, q := p.q,
                                  enableGainComp := p.enableGainComp,
                                  filterOutputGainDb := p.filterOutputGainDb,
                                  matchAnalogNyquistLpf := p.matchAnalogNyquistLpf,
                                  enableNlp := p.enableNlp, selfOscillate := p.selfOscillate);
      IsFloatEqualReflexive(p.fc);
      IsFloatEqualReflexive(p.q);
      IsFloatEqualReflexive(p.filterOutputGainDb);
      IsFloatEqualReflexive(BoolAsDouble(p.enableGainComp));
      f.SetParameters(pushed)
    else
      f
  }

  /**
   `detectorParametersUpdated`: only the attack and release times are
   compared, each by the epsilon test; the detect mode, dB flag and clamp
   flag play no part.
   */
  predicate DetectorParametersUpdated(d: DetectorParameters, p: AutoQParameters)
    // a detector record with exactly the record's attack and release is never reported
    ensures d.attackTimeMs == p.attackTimeMs && d.releaseTimeMs == p.releaseTimeMs
         ==> !DetectorParametersUpdated(d, p)
    // so a report always means attack or release differs
    ensures DetectorParametersUpdated(d, p)
         ==> d.attackTimeMs != p.attackTimeMs || d.releaseTimeMs != p.releaseTimeMs
  {
    !IsFloatEqual(d.attackTimeMs, p.attackTimeMs) || !IsFloatEqual(d.releaseTimeMs, p.releaseTimeMs)
  }

  /**
   Reference definition of "the detector already holds `p`": attack and
   release are each within FLT_EPSILON of the record's.
   */
  ghost predicate DetectorHolds(d: DetectorParameters, p: AutoQParameters)
  {
    && -FltEpsilon < d.attackTimeMs - p.attackTimeMs < FltEpsilon
    && -FltEpsilon < d.releaseTimeMs - p.releaseTimeMs < FltEpsilon
  }

  lemma DetectorParametersUpdatedIffNotHeld(d: DetectorParameters, p: AutoQParameters)
    ensures DetectorParametersUpdated(d, p) <==> !DetectorHolds(d, p)
  {
  }

  /**
   The detector test looks at the attack and release times and nothing else:
   two pairs of records that agree in those give the same answer, whatever
   their detect mode, dB flag, clamp flag, cutoff, threshold or sensitivity.
   */
  lemma DetectorParametersUpdatedReadsOnlyTimes(d: DetectorParameters, d': DetectorParameters,
                                                p: AutoQParameters, p': AutoQParameters)
    requires d.attackTimeMs == d'.attackTimeMs && d.releaseTimeMs == d'.releaseTimeMs
    requires p.attackTimeMs == p'.attackTimeMs && p.releaseTimeMs == p'.releaseTimeMs
    ensures DetectorParametersUpdated(d, p) == DetectorParametersUpdated(d', p')
  {
  }

  /**
   `updateDetectorParameters`: only the attack and release times are ever
   written; the detect mode, dB output and clamp flag are kept, and the
   threshold and sensitivity never reach the detector.
   */
  function UpdateDetectorParameters(d: Detector, p: AutoQParameters): (d': Detector)
    ensures !DetectorParametersUpdated(d.params, p) ==> d' == d
    ensures DetectorParametersUpdated(d.params, p) ==>
      d'.params.attackTimeMs == p.attackTimeMs && d'.params.releaseTimeMs == p.releaseTimeMs
    ensures d'.params.detectMode == d.params.detectMode
    ensures d'.params.detectDb == d.params.detectDb
    ensures d'.params.clampToUnityMax == d.params.clampToUnityMax
    ensures d'.sampleRate == d.sampleRate && d'.state == d.state
    ensures !DetectorParametersUpdated(d'.params, p)
  {
    var adParams := d.params;
    if DetectorParametersUpdated(adParams, p) then
      IsFloatEqualReflexive(p.attackTimeMs);
      IsFloatEqualReflexive(p.releaseTimeMs);
      d.SetParameters(adParams.(attackTimeMs := p.attackTimeMs, releaseTimeMs := p.releaseTimeMs))
    else
      d
  }

  /**
   `setParameters`: sync the filter, then the detector, then store the whole
   record. Afterwards both components hold their part of `p`, the record reads
   back as `p`, and no signal state or sample rate has moved.
   */
  function SetParameters(s: Follower, p: AutoQParameters): (s': Follower)
    ensures GetParameters(s') == p
    ensures !FilterParametersUpdated(s'.filter.params, p)
    ensures !DetectorParametersUpdated(s'.detector.params, p)
    ensures s'.filter.params.unmanaged == s.filter.params.unmanaged
    ensures s'.detector.params.detectMode == s.detector.params.detectMode
    ensures s'.detector.params.detectDb == s.detector.params.detectDb
    ensures s'.detector.params.clampToUnityMax == s.detector.params.clampToUnityMax
    ensures s'.filter.sampleRate == s.filter.sampleRate && s'.filter.state == s.filter.state
    ensures s'.detector.sampleRate == s.detector.sampleRate && s'.detector.state == s.detector.state
  {
    var filter := UpdateFilterParameters(s.filter, p);
    var detector := UpdateDetectorParameters(s.detector, p);
    Follower(Assign(s.parameters, p, false), filter, detector)
  }

  /**
   Re-syncing an identical record changes nothing: both change tests are
   false on the components `setParameters` leaves, so the second call takes
   the no-push branch for each of them.
   */
  lemma SetParametersIdempotent(s: Follower, p: AutoQParameters)
    ensures !FilterParametersUpdated(SetParameters(s, p).filter.params, p)
    ensures !DetectorParametersUpdated(SetParameters(s, p).detector.params, p)
    ensures UpdateFilterParameters(SetParameters(s, p).filter, p) == SetParameters(s, p).filter
    ensures UpdateDetectorParameters(SetParameters(s, p).detector, p) == SetParameters(s, p).detector
    ensures SetParameters(SetParameters(s, p), p) == SetParameters(s, p)
  {
  }

  /**
   The filter side of `setParameters` depends only on the eight filter
   fields of the record, and the detector side only on the attack and
   release times: threshold and sensitivity reach neither component.
   */
  lemma SetParametersReadsOnlyItsFields(s: Follower, p: AutoQParameters, p': AutoQParameters)
    ensures p'.(attackTimeMs := p.attackTimeMs, releaseTimeMs := p.releaseTimeMs,
                thresholdDb := p.thresholdDb, sensitivity := p.sensitivity) == p
      ==> SetParameters(s, p).filter == SetParameters(s, p').filter
    ensures p'.attackTimeMs == p.attackTimeMs && p'.releaseTimeMs == p.releaseTimeMs
      ==> SetParameters(s, p).detector == SetParameters(s, p').detector
  {
  }

  /**
   A drift below FLT_EPSILON is absorbed: when the filter already holds `p`
   by the epsilon comparison, its record, cutoff included, is left as it is,
   even where it is not exactly `p.fc`.
   */
  lemma SubEpsilonDriftIsNotPushed(s: Follower, p: AutoQParameters)
    requires FilterHolds(s.filter.params, p)
    ensures SetParameters(s, p).filter == s.filter
  {
    FilterParametersUpdatedIffNotHeld(s.filter.params, p);
  }

  /**
   The epsilon test is not transitive, and the sync shows it: starting from a
   filter that was just pushed to `p`, a record whose cutoff is 0.6 FLT_EPSILON
   higher is absorbed (the filter keeps `p.fc`), but a next record another
   0.6 FLT_EPSILON higher, though within FLT_EPSILON of the stored record,
   is 1.2 FLT_EPSILON from the filter's cutoff and is pushed.
   */
  lemma SubEpsilonStepsAccumulate(s: Follower, p: AutoQParameters)
    requires FilterParametersUpdated(s.filter.params, p)
    ensures var p1, p2 := p.(fc := p.fc + 0.6 * FltEpsilon), p.(fc := p.fc + 1.2 * FltEpsilon);
      var s0 := SetParameters(s, p);
      var s1 := SetParameters(s0, p1);
      && IsFloatEqual(p1.fc, p2.fc)
      && s1.filter == s0.filter
      && s1.filter.params.fc == p.fc
      && SetParameters(s1, p2).filter.params.fc == p2.fc
  {
  }

  /** Linear excess of the detected level over the threshold: `detectValue - threshValue`. */
  function ThresholdDelta(dsp: Dsp, thresholdDb: real, detectDb: real): real
  {
    dsp.dbToLinear(detectDb) - dsp.dbToLinear(thresholdDb)
  }

  /** The modulator `deltaValue * sensitivity` derived from a detected level. */
  function ModulatorValue(dsp: Dsp, p: AutoQParameters, detectDb: real): real
  {
    ThresholdDelta(dsp, p.thresholdDb, detectDb) * p.sensitivity
  }

  /**
   The per-sample control decision: the filter record `processAudioSample`
   hands to the filter for a detected level `detectDb`. At or below the
   threshold the filter gets the stored base cutoff and Q; above it the
   cutoff is the unipolar modulation of the excess times the sensitivity,
   from the base cutoff up to the maximum filter frequency. Only the cutoff
   and Q are written.
   */
  function ControlFilterParameters(dsp: Dsp, p: AutoQParameters, fp: FilterParameters, detectDb: real): (r: FilterParameters)
    ensures r.q == p.q
    ensures ThresholdDelta(dsp, p.thresholdDb, detectDb) <= 0.0 ==> r.fc == p.fc
    ensures ThresholdDelta(dsp, p.thresholdDb, detectDb) > 0.0 ==>
      r.fc == dsp.unipolarFromMin(ModulatorValue(dsp, p, detectDb), p.fc, dsp.maxFilterFrequency)
    ensures r.(fc := fp.fc, q := fp.q) == fp
  {
    var deltaValue := ThresholdDelta(dsp, p.thresholdDb, detectDb);
    var filterParams := fp.(fc := p.fc, q := p.q);
    if deltaValue > 0.0 then
      var modulatorValue := ModulatorValue(dsp, p, detectDb);
      filterParams.(fc := dsp.unipolarFromMin(modulatorValue, p.fc, dsp.maxFilterFrequency))
    else
      filterParams
  }

  /** The level `detector.processAudioSample(xn)` reports for follower `s`. */
  function DetectedLevel(dsp: Dsp, s: Follower, xn: real): real
  {
    dsp.detectorProcess(s.detector.params, s.detector.sampleRate, s.detector.state, xn).0
  }

  /**
   `processAudioSample`: run the detector on `xn`, install the controlled
   filter record, then run the filter on `xn`. The parameter record and the
   detector's parameters are not changed; each component steps once, and the
   output is the filter's output under the controlled record.
   */
  function ProcessAudioSample(dsp: Dsp, s: Follower, xn: real): (r: (Follower, real))
    ensures r.0.parameters == s.parameters
    ensures r.0.detector.params == s.detector.params
    ensures r.0.detector.sampleRate == s.detector.sampleRate
    ensures r.0.filter.sampleRate == s.filter.sampleRate
    ensures r.0.filter.params == ControlFilterParameters(dsp, s.parameters, s.filter.params, DetectedLevel(dsp, s, xn))
    // each component advances its signal state exactly once, on this sample
    ensures r.0.detector.state == dsp.detectorProcess(s.detector.params, s.detector.sampleRate, s.detector.state, xn).1
    ensures r.0.filter.state == dsp.filterProcess(r.0.filter.params, s.filter.sampleRate, s.filter.state, xn).1
    ensures r.1 == dsp.filterProcess(r.0.filter.params, s.filter.sampleRate, s.filter.state, xn).0
  {
    var (detectDb, detector) := s.detector.Process(dsp, xn);
    var filterParams := ControlFilterParameters(dsp, s.parameters, s.filter.params, detectDb);
    var (y, filter) := s.filter.SetParameters(filterParams).Process(dsp, xn);
    (Follower(s.parameters, filter, detector), y)
  }

  /** The dB-to-linear conversion never decreases. */
  ghost predicate Monotone(toLinear: real -> real)
  {
    forall a: real, b: real :: a <= b ==> toLinear(a) <= toLinear(b)
  }

  /** The dB-to-linear conversion strictly increases. */
  ghost predicate StrictlyMonotone(toLinear: real -> real)
  {
    forall a: real, b: real :: a < b ==> toLinear(a) < toLinear(b)
  }

  /**
   No modulation at or below the threshold: for any conversion that does not
   decrease, a detected level at or below the threshold in dB leaves the
   filter at the stored base cutoff and Q.
   */
  lemma NoModulationAtOrBelowThreshold(dsp: Dsp, s: Follower, xn: real)
    requires Monotone(dsp.dbToLinear)
    requires DetectedLevel(dsp, s, xn) <= s.parameters.thresholdDb
    ensures ProcessAudioSample(dsp, s, xn).0.filter.params.fc == s.parameters.fc
    ensures ProcessAudioSample(dsp, s, xn).0.filter.params.q == s.parameters.q
  {
  }

  /**
   Above the threshold in dB, with a strictly increasing conversion, the
   cutoff is the unipolar modulation of a positive excess.
   */
  lemma ModulationAboveThreshold(dsp: Dsp, s: Follower, xn: real)
    requires StrictlyMonotone(dsp.dbToLinear)
    requires DetectedLevel(dsp, s, xn) > s.parameters.thresholdDb
    ensures ThresholdDelta(dsp, s.parameters.thresholdDb, DetectedLevel(dsp, s, xn)) > 0.0
    ensures ProcessAudioSample(dsp, s, xn).0.filter.params.fc
      == dsp.unipolarFromMin(ModulatorValue(dsp, s.parameters, DetectedLevel(dsp, s, xn)),
                             s.parameters.fc, dsp.maxFilterFrequency)
  {
  }

  /**
   The modulated cutoff stays in the filter's record: a later
   `setParameters(p)` with the very record already stored compares against
   that cutoff. If the modulated cutoff is not within FLT_EPSILON of `p.fc`
   the filter is pushed again and its cutoff returns to `p.fc`; if no
   modulation happened, the re-sync pushes nothing to the filter.
   */
  lemma ResyncAfterProcessing(dsp: Dsp, s: Follower, p: AutoQParameters, xn: real)
    ensures var s1 := ProcessAudioSample(dsp, SetParameters(s, p), xn).0;
      !IsFloatEqual(s1.filter.params.fc, p.fc) ==>
        && FilterParametersUpdated(s1.filter.params, p)
        && SetParameters(s1, p).filter.params.fc == p.fc
    ensures var s0 := SetParameters(s, p);
      var s1 := ProcessAudioSample(dsp, s0, xn).0;
      ThresholdDelta(dsp, p.thresholdDb, DetectedLevel(dsp, s0, xn)) <= 0.0 ==>
        SetParameters(s1, p).filter == s1.filter
  {
  }
}
