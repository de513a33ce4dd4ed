/**
 The parameter record of the Auto-Q envelope follower
 (`AutoQEnvelopeFollowerParameters`): eight filter fields and four detector
 fields, their default values, and the record's copy-assignment rule.
 */
module Parameters {

  /**
   The state-variable filter taps the Auto-Q plugin offers (low-pass,
   high-pass, band-pass). The full `vaFilterAlgorithm` enumeration is
   declared in fxobjects.h, which is not part of this model.
   */
  datatype FilterAlgorithm = SvfLowPass | SvfHighPass | SvfBandPass

  datatype AutoQParameters = AutoQParameters(
    // filter parameters
    filterAlgorithm: FilterAlgorithm,
    fc: real,
    q: real,
    filterOutputGainDb: real,
    enableGainComp: bool,
    matchAnalogNyquistLpf: bool,
    selfOscillate: bool,
    enableNlp: bool,
    // detector parameters
    attackTimeMs: real,
    releaseTimeMs: real,
    thresholdDb: real,
    sensitivity: real)

  /** A default-constructed record: the values of the field initialisers. */
  function DefaultParameters(): (p: AutoQParameters)
    ensures p.filterAlgorithm == SvfLowPass && p.fc == 1000.0 && p.q == 0.707
    ensures p.filterOutputGainDb == 0.0
    ensures !p.enableGainComp && p.matchAnalogNyquistLpf && !p.selfOscillate && p.enableNlp
    ensures p.attackTimeMs == 20.0 && p.releaseTimeMs == 500.0
    ensures p.thresholdDb == -6.0 && p.sensitivity == 1.0
  {
    AutoQParameters(SvfLowPass, 1000.0, 0.707, 0.0, false, true, false, true,
                    20.0, 500.0, -6.0, 1.0)
  }

  /**
   `target = source`. Values have no identity here, so whether `target` and
   `source` are the same object is passed in as `aliased`; an aliased
   assignment returns the target as it is, any other copies the twelve fields
   one by one.
   */
  function Assign(target: AutoQParameters, source: AutoQParameters, aliased: bool): (r: AutoQParameters)
    requires aliased ==> target == source
    ensures r == source
    ensures aliased ==> r == target
  {
    if aliased then target
    else
      target.(filterAlgorithm := source.filterAlgorithm)
            .(fc := source.fc)
            .(q := source.q)
            .(filterOutputGainDb := source.filterOutputGainDb)
            .(enableGainComp := source.enableGainComp)
            .(matchAnalogNyquistLpf := source.matchAnalogNyquistLpf)
            .(selfOscillate := source.selfOscillate)
            .(enableNlp := source.enableNlp)
            .(attackTimeMs := source.attackTimeMs)
            .(releaseTimeMs := source.releaseTimeMs)
            .(thresholdDb := source.thresholdDb)
            .(sensitivity := source.sensitivity)
  }

  /** Self-assignment leaves the record unchanged. */
  lemma SelfAssignmentIsIdentity(p: AutoQParameters)
    ensures Assign(p, p, true) == p
    ensures Assign(p, p, false) == p
  {
  }
}
