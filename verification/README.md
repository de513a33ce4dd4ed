# Auto-Q envelope follower in Dafny

This project models `AutoQEnvelopeFollower`, the per-channel processing unit of the Auto-Q plugin. It is a
zero-delay-feedback state-variable filter whose cutoff an audio detector modulates toward the maximum filter frequency
once the detected level crosses a threshold. The model covers four things:

- **The parameter record** `AutoQEnvelopeFollowerParameters`: its twelve fields, its defaults and its copy-assignment
  rule.
- **The sync layer.** This layer compares an incoming record with the filter's and the detector's own copies using the
  `isFloatEqual` epsilon comparison. It pushes only the relevant fields, and only when something differs. It then
  stores the whole record so that `getParameters` returns it.
- **The per-sample control decision.** The detector's level and the threshold are compared in linear terms. At or below
  the threshold, the filter gets the base cutoff and Q. Above it, the cutoff becomes a unipolar modulation of
  `delta * sensitivity` toward the maximum filter frequency.
- **Any sequence of `reset`, `setParameters` and `processAudioSample` calls**, and what every such sequence preserves.

Modules, one per file:

- `FloatCompare` (`float_compare.dfy`): `isFloatEqual`, with FLT_EPSILON = 2^-23 as in the C header `<float.h>`. It also
  covers how a `bool` compares once it is converted to a `double`.
- `Parameters` (`parameters.dfy`): the parameter record, its defaults and `operator=`.
- `Components` (`components.dfy`): `ZVAFilter` and `AudioDetector` seen from the outside. Each holds a parameter record,
  a sample rate and opaque signal state. The `Dsp` record carries the following as uninterpreted function values:
  - their signal processing;
  - `pow(10, x/20)`;
  - `doUnipolarModulationFromMin`;
  - `kMaxFilterFrequency`.
- `EnvelopeFollower` (`envelope_follower.dfy`): the constructor, `reset`, the change detection and sync, `setParameters`
  / `getParameters`, and `processAudioSample`.
- `Lifecycle` (`lifecycle.dfy`): call sequences and the invariants they keep.

Modelling assumptions about code that lives in fxobjects.h (not part of this model):

- `ZVAFilter::setParameters` and `AudioDetector::setParameters` store the record they are given and change nothing
  else: not the sample rate and not the signal state. Any coefficients they cache are taken to be derived from the
  record and the sample rate. `EnvelopeFollower.SetParameters`' "no sample rate or signal state moves" rests on this.
- The two components' `reset` keeps the parameter record, adopts the new sample rate and restarts the signal state.
- The two components' `processAudioSample` advances only their signal state: it never changes their own parameter
  record or sample rate. The lifecycle invariants (`Lifecycle.RunPreservesCoherent`,
  `Lifecycle.RunKeepsUnmanagedSettings`, `Lifecycle.ConstructedDetectorStaysConfigured`) rest on this.

Behaviour of the code worth knowing:

- **Re-sync after processing.** Re-ingesting an unchanged record is idempotent only until the next
  `processAudioSample`, because that call writes the modulated cutoff into the filter's record. A later
  `setParameters` with the very same record then compares against the modulated cutoff and pushes the base cutoff
  again (`EnvelopeFollower.ResyncAfterProcessing`). Two back-to-back `setParameters` calls take the no-push branch the
  second time (`EnvelopeFollower.SetParametersIdempotent`).
- **Threshold comparison.** The threshold test compares linear values after `pow(10, x/20)`, not dB values. "No
  modulation at or below the threshold in dB" follows for any dB-to-linear conversion that never decreases.
- **Cutoff range.** Whether the modulated cutoff stays between the base frequency and the maximum depends entirely on
  `doUnipolarModulationFromMin`, defined in fxobjects.h, outside this model, so no bound is stated.

## Model

| member | source | states |
|---|---|---|
| FloatCompare.Abs | Auto-Q/PluginObjects/customfxobjects.h:126 | `fabs`: the result is never negative and is either the argument or its negation |
| FloatCompare.IsFloatEqual | Auto-Q/PluginObjects/customfxobjects.h:124-127 | two values compare equal exactly when their difference lies strictly between -FLT_EPSILON and FLT_EPSILON, with FLT_EPSILON = 2^-23 |
| FloatCompare.IsFloatEqualReflexive | Auto-Q/PluginObjects/customfxobjects.h:124-127 | every value compares equal to itself, since the distance 0 is below FLT_EPSILON |
| FloatCompare.IsFloatEqualSymmetric | Auto-Q/PluginObjects/customfxobjects.h:124-127 | the epsilon comparison does not depend on argument order |
| FloatCompare.BoolCompareIsExact | Auto-Q/PluginObjects/customfxobjects.h:134 | comparing the gain-compensation flags as doubles is exactly bool equality |
| Parameters.DefaultParameters | Auto-Q/PluginObjects/customfxobjects.h:47-61 | a default record is LP, fc 1000, Q 0.707, 0 dB gain, gain comp off, Nyquist match on, self-oscillation off, NLP on, attack 20 ms, release 500 ms, threshold -6 dB, sensitivity 1 |
| Parameters.Assign | Auto-Q/PluginObjects/customfxobjects.h:22-45 | after assignment the target equals the source in all twelve fields; self-assignment returns the target unchanged |
| Parameters.SelfAssignmentIsIdentity | Auto-Q/PluginObjects/customfxobjects.h:25-26 | assigning a record to itself, aliased or not, yields the same record |
| EnvelopeFollower.Construct | Auto-Q/PluginObjects/customfxobjects.h:85-105 | the constructed follower holds the default record; the detector is RMS, dB, unclamped, 20/500 ms and already agrees with that record; the filter is LP at 1000 Hz with the four flags set, while Q, output gain and other fields keep the filter's own defaults; the components' sample rates and signal states are those they were constructed with |
| EnvelopeFollower.Reset | Auto-Q/PluginObjects/customfxobjects.h:110-116 | reset resets both filter and detector at the same sample rate, so each one's signal state restarts from its reset state for that rate; no parameter record changes; the result is true |
| EnvelopeFollower.GetParameters | Auto-Q/PluginObjects/customfxobjects.h:122 | the accessor has no contract of its own; what it returns is stated by SetParameters (the read-back after setParameters(p) is p) and by Lifecycle.RunReadsBackLastSet (after any call sequence, the last record set) |
| EnvelopeFollower.FilterParametersUpdated | Auto-Q/PluginObjects/customfxobjects.h:129-139 | any difference in the algorithm or one of the four flags is reported; a filter record agreeing exactly in the eight compared fields is not |
| EnvelopeFollower.FilterParametersUpdatedIffNotHeld | Auto-Q/PluginObjects/customfxobjects.h:129-139 | the change test fires exactly when the algorithm or a flag differs, or fc, Q or output gain is FLT_EPSILON or more apart |
| EnvelopeFollower.UpdateFilterParameters | Auto-Q/PluginObjects/customfxobjects.h:142-157 | with no difference the filter is untouched; otherwise exactly the eight managed fields take the record's values and everything else of the filter is kept; afterwards the change test is false |
| EnvelopeFollower.DetectorParametersUpdated | Auto-Q/PluginObjects/customfxobjects.h:158-162 | a detector record with exactly the record's attack and release is not reported, so a report always means attack or release differs |
| EnvelopeFollower.DetectorParametersUpdatedIffNotHeld | Auto-Q/PluginObjects/customfxobjects.h:158-162 | the detector test fires exactly when attack or release is FLT_EPSILON or more away from the record's |
| EnvelopeFollower.DetectorParametersUpdatedReadsOnlyTimes | Auto-Q/PluginObjects/customfxobjects.h:158-162 | nothing but attack and release is compared: records agreeing in those two times give the same answer whatever their other fields |
| EnvelopeFollower.UpdateDetectorParameters | Auto-Q/PluginObjects/customfxobjects.h:158-174 | only attack and release are compared and written; detect mode, dB flag and clamp flag are kept; afterwards the change test is false |
| EnvelopeFollower.SetParameters | Auto-Q/PluginObjects/customfxobjects.h:180-187 | getParameters after setParameters(p) returns p; both components then hold their part of p; the detector's mode, dB flag and clamp flag and the unmanaged filter fields are kept; no sample rate or signal state moves |
| EnvelopeFollower.SetParametersIdempotent | Auto-Q/PluginObjects/customfxobjects.h:180-187 | on the components setParameters(p) leaves, both change tests are false for p, so a second setParameters(p) takes the no-push branch for the filter and for the detector and changes nothing |
| EnvelopeFollower.SetParametersReadsOnlyItsFields | Auto-Q/PluginObjects/customfxobjects.h:142-174 | the filter side depends only on the eight filter fields and the detector side only on attack and release; threshold and sensitivity reach neither component |
| EnvelopeFollower.SubEpsilonDriftIsNotPushed | Auto-Q/PluginObjects/customfxobjects.h:129-157 | when the filter already holds the record within FLT_EPSILON, its record is left as is, even where it is not exactly equal |
| EnvelopeFollower.SubEpsilonStepsAccumulate | Auto-Q/PluginObjects/customfxobjects.h:124-157 | the epsilon test is not transitive: after a push of p, a cutoff 0.6 epsilon higher is absorbed and the filter keeps p.fc, but a further 0.6 epsilon step, though within epsilon of the stored record, is pushed |
| EnvelopeFollower.ControlFilterParameters | Auto-Q/PluginObjects/customfxobjects.h:199-222 | the filter gets the stored Q always; it gets the base fc when the linear excess is at most 0, and the unipolar modulation of excess times sensitivity from base fc to the maximum frequency otherwise; no other filter field changes |
| EnvelopeFollower.ProcessAudioSample | Auto-Q/PluginObjects/customfxobjects.h:197-229 | processing keeps the parameter record, the detector record and both sample rates; it installs the controlled filter record for the level the detector reports for this same sample; detector and filter each advance their signal state exactly once; the output is the filter's output under that record |
| EnvelopeFollower.NoModulationAtOrBelowThreshold | Auto-Q/PluginObjects/customfxobjects.h:199-212 | for a non-decreasing dB conversion, a detected level at or below the threshold leaves the filter at the base fc and Q |
| EnvelopeFollower.ModulationAboveThreshold | Auto-Q/PluginObjects/customfxobjects.h:211-222 | for a strictly increasing dB conversion, a detected level above the threshold gives a positive excess, and the cutoff is its unipolar modulation |
| EnvelopeFollower.ResyncAfterProcessing | Auto-Q/PluginObjects/customfxobjects.h:207-225 | the modulated fc stays in the filter record, so re-syncing the same record pushes again and restores the base fc when the modulated fc is not within epsilon; after an unmodulated sample the re-sync pushes nothing |
| Lifecycle.RunReadsBackLastSet | Auto-Q/PluginObjects/customfxobjects.h:180-187 | over any call sequence, getParameters returns the record of the last setParameters, or the initial record if there was none |
| Lifecycle.SetParametersMakesCoherent | Auto-Q/PluginObjects/customfxobjects.h:180-187 | after any setParameters the filter has the record's algorithm and flags, Q and gain within epsilon, and the detector attack and release within epsilon |
| Lifecycle.RunPreservesCoherent | Auto-Q/PluginObjects/customfxobjects.h:180-229 | once the components agree with the stored record (cutoff aside), they keep agreeing under any sequence of reset, setParameters and processAudioSample calls |
| Lifecycle.RunKeepsUnmanagedSettings | Auto-Q/PluginObjects/customfxobjects.h:142-174 | no call sequence changes the detector's mode, dB flag or clamp flag, or any filter field the follower does not manage |
| Lifecycle.ConstructedDetectorStaysConfigured | Auto-Q/PluginObjects/customfxobjects.h:98-104 | the detector installed by the constructor stays RMS, dB and unclamped over the follower's whole life |
| Lifecycle.RunKeepsSampleRatesEqual | Auto-Q/PluginObjects/customfxobjects.h:111-116 | once filter and detector share a sample rate, any call sequence keeps them sharing one |
| Lifecycle.ConstructedFollowerAgreesWithDefaults | Auto-Q/PluginObjects/customfxobjects.h:85-105 | the constructed follower agrees with its default record exactly when the filter's own Q and gain defaults are within epsilon of 0.707 and 0 dB; in that case the first setParameters of the defaults pushes nothing |

## Left out

- **Numerics of `ZVAFilter` and `AudioDetector`:**
  - the coefficient calculation;
  - the state-variable update;
  - Nyquist matching, gain compensation, self-oscillation and non-linear processing;
  - envelope smoothing.

  These are defined in fxobjects.h, which is not part of this model. They are uninterpreted functions of a `Dsp`
  record, so no bound on the cutoff and no claim of filter stability is stated.
- **`pow(10, x/20)`, `doUnipolarModulationFromMin` and `kMaxFilterFrequency`:** defined in fxobjects.h and the C
  library, and uninterpreted here. Doubles are modelled as reals, without IEEE rounding in `fabs(a - b)` or in
  `deltaValue * sensitivity`.
- **The defaults of a default-constructed `ZVAFilterParameters`, `ZVAFilter` and `AudioDetector`:** declared in
  fxobjects.h. They are parameters of `EnvelopeFollower.Construct`.
- **`vaFilterAlgorithm`:** modelled by the three state-variable taps the plugin exposes (low-, high- and band-pass). The
  rest of the enumeration is declared in fxobjects.h.
- **Object identity in `operator=`:** modelled by an `aliased` flag, because Dafny values have no address.
- **`canProcessAudioFrame`:** a constant `false` with nothing to state.
- **The plugin kernel:** control-ID enumerations, GUI-bound variables, the metering observer, per-channel follower
  arrays, buffer iteration and host messaging. These are framework declarations without logic bodies.
- **Plugin descriptions:** the vendor, bundle, identifier and four-character-code metadata.
- **Concurrency and parameter delivery from other threads:** the model is single-threaded.
