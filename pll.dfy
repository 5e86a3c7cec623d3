/**
 * The PLL factor set handed to the clock controller and the frequencies it
 * implies: the source oscillator is divided by M into the input stage, the
 * input stage is multiplied by N into the VCO, and the VCO is divided by P, Q
 * and R into the three outputs.
 */
module Pll {
  import opened Units

  /** A divider of the PLL; the hardware has no divide-by-zero setting. */
  type Divider = n: nat | 1 <= n witness 1

  /** The input-frequency band tag of the PLL, each named after its band in MHz. */
  datatype PllInputRange = MHz1_2 | MHz2_4 | MHz4_8 | MHz8_16

  datatype PllFactors = PllFactors(
    range: PllInputRange,
    pllM: Divider,
    pllN: nat,
    pllP: Divider,
    pllQ: Divider,
    pllR: Divider)

  /** The three outputs of a PLL. */
  datatype Output = P | Q | R

  /** Lowest and highest input-stage frequency the band tag names. */
  function BandLow(range: PllInputRange): nat {
    match range
    case MHz1_2 => 1 * MHz
    case MHz2_4 => 2 * MHz
    case MHz4_8 => 4 * MHz
    case MHz8_16 => 8 * MHz
  }

  function BandHigh(range: PllInputRange): nat {
    match range
    case MHz1_2 => 2 * MHz
    case MHz2_4 => 4 * MHz
    case MHz4_8 => 8 * MHz
    case MHz8_16 => 16 * MHz
  }

  predicate InBand(range: PllInputRange, hz: nat) {
    BandLow(range) <= hz <= BandHigh(range)
  }

  /**
   * Source frequency divided by M, in whole Hz: the quotient is truncated, and
   * it is exact when M divides the source frequency.
   */
  function InputStageHz(sourceHz: nat, f: PllFactors): (r: nat)
    ensures r * f.pllM <= sourceHz < (r + 1) * f.pllM
    ensures sourceHz % f.pllM == 0 ==> r * f.pllM == sourceHz
  {
    sourceHz / f.pllM
  }

  /** Input stage multiplied by N; exactly source × N / M when M divides the source. */
  function VcoHz(sourceHz: nat, f: PllFactors): (r: nat)
    ensures sourceHz % f.pllM == 0 ==> r * f.pllM == sourceHz * f.pllN
  {
    var stage := InputStageHz(sourceHz, f);
    assert stage * f.pllN * f.pllM == stage * f.pllM * f.pllN;
    stage * f.pllN
  }

  function OutputDivider(f: PllFactors, o: Output): Divider {
    match o
    case P => f.pllP
    case Q => f.pllQ
    case R => f.pllR
  }

  /**
   * The frequency of one PLL output: the VCO divided by the output's divider,
   * truncated to whole Hz. When every division is exact it is
   * source × N / (M × divider).
   */
  function OutputHz(sourceHz: nat, f: PllFactors, o: Output): (r: nat)
    ensures r * OutputDivider(f, o) <= VcoHz(sourceHz, f) < (r + 1) * OutputDivider(f, o)
    ensures sourceHz % f.pllM == 0 && VcoHz(sourceHz, f) % OutputDivider(f, o) == 0 ==>
      r * OutputDivider(f, o) * f.pllM == sourceHz * f.pllN
  {
    var vco := VcoHz(sourceHz, f);
    var d := OutputDivider(f, o);
    var r := vco / d;
    assert r * d * f.pllM == (r * d) * f.pllM;
    r
  }
}
