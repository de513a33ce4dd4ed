/**
 The two components the envelope follower owns, `ZVAFilter` and
 `AudioDetector`, seen from the outside: each holds a parameter record that
 `setParameters` stores and `getParameters` returns, a sample rate, and
 private signal state. Their signal processing, the dB-to-linear conversion
 `pow(10, x / 20)` and `doUnipolarModulationFromMin` are defined in
 fxobjects.h, which is not part of this model; they reach the model as the
 function values of a `Dsp` record, about which nothing is assumed.
 */
module Components {
  import opened Parameters

  /** Detection modes of the audio detector (TLD_AUDIO_DETECT_MODE_*). */
  datatype DetectMode = Peak | MeanSquare | Rms

  /**
   `ZVAFilterParameters`: the eight fields the envelope follower manages,
   and `unmanaged`, standing for anything else the record holds, which the
   follower never writes.
   */
  datatype FilterParameters = FilterParameters(
    filterAlgorithm: FilterAlgorithm,
    fc: real,
    q: real,
    filterOutputGainDb: real,
    enableGainComp: bool,
    matchAnalogNyquistLpf: bool,
    selfOscillate: bool,
    enableNlp: bool,
    unmanaged: seq<real>)

  /** `AudioDetectorParameters`. */
  datatype DetectorParameters = DetectorParameters(
    attackTimeMs: real,
    releaseTimeMs: real,
    detectMode: DetectMode,
    detectDb: bool,
    clampToUnityMax: bool)

  /**
   The signal processing the components delegate to fxobjects.h, as
   uninterpreted functions:
   - `filterResetState(params, sampleRate)`: the filter state after `reset`;
   - `filterProcess(params, sampleRate, state, x)`: output sample and next state;
   - `detectorResetState`, `detectorProcess`: the same for the detector, whose
     output is the detected level (in dB when `detectDb` is set);
   - `dbToLinear(x)`: `pow(10.0, x / 20.0)`;
   - `unipolarFromMin(m, min, max)`: `doUnipolarModulationFromMin`;
   - `maxFilterFrequency`: `kMaxFilterFrequency`.
   */
  datatype Dsp = Dsp(
    filterResetState: (FilterParameters, real) -> seq<real>,
    filterProcess: (FilterParameters, real, seq<real>, real) -> (real, seq<real>),
    detectorResetState: (DetectorParameters, real) -> seq<real>,
    detectorProcess: (DetectorParameters, real, seq<real>, real) -> (real, seq<real>),
    dbToLinear: real -> real,
    unipolarFromMin: (real, real, real) -> real,
    maxFilterFrequency: real)

  datatype Filter = Filter(params: FilterParameters, sampleRate: real, state: seq<real>)
  {
    /** `ZVAFilter::setParameters`: the record is stored as given. */
    function SetParameters(p: FilterParameters): (f: Filter)
    {
      this.(params := p)
    }

    /** `ZVAFilter::reset`: the new rate is kept and the signal state restarts. */
    function Reset(dsp: Dsp, rate: real): (f: Filter)
    {
      Filter(params, rate, dsp.filterResetState(params, rate))
    }

    /** `ZVAFilter::processAudioSample`: output sample and the filter afterwards. */
    function Process(dsp: Dsp, x: real): (r: (real, Filter))
    {
      var (y, next) := dsp.filterProcess(params, sampleRate, state, x);
      (y, this.(state := next))
    }
  }

  datatype Detector = Detector(params: DetectorParameters, sampleRate: real, state: seq<real>)
  {
    /** `AudioDetector::setParameters`: the record is stored as given. */
    function SetParameters(p: DetectorParameters): (d: Detector)
    {
      this.(params := p)
    }

    /** `AudioDetector::reset`. */
    function Reset(dsp: Dsp, rate: real): (d: Detector)
    {
      Detector(params, rate, dsp.detectorResetState(params, rate))
    }

    /** `AudioDetector::processAudioSample`: detected level and the detector afterwards. */
    function Process(dsp: Dsp, x: real): (r: (real, Detector))
    {
      var (level, next) := dsp.detectorProcess(params, sampleRate, state, x);
      (level, this.(state := next))
    }
  }
}
