/**
 * Fourier coefficient extraction.  The discrete Fourier transform of the
 * sampled heights is an input here (a sequence of complex bins, as many as
 * there are samples); from its first n_coeff bins the fitter reads the cosine
 * and sine amplitudes a_n = 2 Re(F_n) / N and b_n = -2 Im(F_n) / N.
 */
module Fourier {
  import opened Wrappers

  datatype Complex = Complex(re: real, im: real)

  /** One coefficient pair of the truncated series: cosine amplitude a, sine amplitude b. */
  datatype Coeff = Coeff(a: real, b: real)

  /** The transform of an empty signal has no bins; a bin past the end cannot be read. */
  datatype FitError = EmptySignal | BinOutOfRange

  /** Number of coefficient pairs the extractor keeps by default. */
  const NCoeff: nat := 21

  /** The coefficient pair read from bin `n` of a spectrum of `nBins` bins. */
  function CoeffAt(spectrum: seq<Complex>, n: nat): (c: Coeff)
    requires n < |spectrum|
    ensures c.a * (|spectrum| as real) == 2.0 * spectrum[n].re
    ensures c.b * (|spectrum| as real) == -2.0 * spectrum[n].im
  {
    var nBins := |spectrum| as real;
    Coeff(2.0 * spectrum[n].re / nBins, -2.0 * spectrum[n].im / nBins)
  }

  /**
   * The coefficient pairs 0 .. nCoeff - 1, in harmonic order.  It fails when
   * the signal is empty, and when the spectrum has fewer than nCoeff bins.
   */
  function CoefficientsOf(spectrum: seq<Complex>, nCoeff: nat): (r: Result<seq<Coeff>, FitError>)
    ensures r == Failure(EmptySignal) <==> spectrum == []
    ensures r == Failure(BinOutOfRange) <==> 0 < |spectrum| < nCoeff
    ensures r.Success? ==> (|r.value| == nCoeff &&
      forall n :: 0 <= n < nCoeff ==>
        r.value[n].a * (|spectrum| as real) == 2.0 * spectrum[n].re &&
        r.value[n].b * (|spectrum| as real) == -2.0 * spectrum[n].im)
  {
    if spectrum == [] then Failure(EmptySignal)
    else if |spectrum| < nCoeff then Failure(BinOutOfRange)
    else Success(seq(nCoeff, n requires 0 <= n < nCoeff => CoeffAt(spectrum, n)))
  }

  /**
   * The coefficient loop: for n = 0 .. nCoeff - 1 read bin n and append its
   * pair.  Reading a bin past the end stops the fit.
   */
  method ExtractCoefficients(spectrum: seq<Complex>, nCoeff: nat) returns (r: Result<seq<Coeff>, FitError>)
    ensures r == CoefficientsOf(spectrum, nCoeff)
  {
    var nBins := |spectrum|;
    if nBins == 0 {
      return Failure(EmptySignal);
    }
    var fourierCoeff: seq<Coeff> := [];
    for n := 0 to nCoeff
      invariant |fourierCoeff| == n && n <= nBins
      invariant forall k :: 0 <= k < n ==> fourierCoeff[k] == CoeffAt(spectrum, k)
    {
      if n >= nBins {
        return Failure(BinOutOfRange);
      }
      var a := 2.0 * spectrum[n].re / (nBins as real);
      var b := -2.0 * spectrum[n].im / (nBins as real);
      fourierCoeff := fourierCoeff + [Coeff(a, b)];
    }
    assert fourierCoeff == seq(nCoeff, n requires 0 <= n < nCoeff => CoeffAt(spectrum, n));
    r := Success(fourierCoeff);
  }

  /** The spectrum bin a coefficient pair was read from, for a transform of `nBins` bins. */
  function BinOf(c: Coeff, nBins: nat): (bin: Complex)
    ensures 2.0 * bin.re == c.a * (nBins as real) && -2.0 * bin.im == c.b * (nBins as real)
  {
    Complex(c.a * (nBins as real) / 2.0, -c.b * (nBins as real) / 2.0)
  }

  /** The extracted pairs determine the first nCoeff bins: mapping each back gives the bin it came from. */
  lemma SpectrumRoundTrip(spectrum: seq<Complex>, nCoeff: nat)
    requires CoefficientsOf(spectrum, nCoeff).Success?
    ensures var cs := CoefficientsOf(spectrum, nCoeff).value;
      forall n :: 0 <= n < nCoeff ==> BinOf(cs[n], |spectrum|) == spectrum[n]
  {
    var cs := CoefficientsOf(spectrum, nCoeff).value;
    forall n | 0 <= n < nCoeff ensures BinOf(cs[n], |spectrum|) == spectrum[n] {
      var nb := |spectrum| as real;
      assert cs[n].a * nb == 2.0 * spectrum[n].re;
      assert cs[n].b * nb == -2.0 * spectrum[n].im;
    }
  }

  function Sum(ys: seq<real>): (total: real)
  {
    if ys == [] then 0.0 else ys[0] + Sum(ys[1..])
  }

  function Mean(ys: seq<real>): (m: real)
    requires ys != []
    ensures m * (|ys| as real) == Sum(ys)
  {
    Sum(ys) / (|ys| as real)
  }

  lemma ZeroProduct(x: real, d: real)
    requires d > 0.0 && x * d == 0.0
    ensures x == 0.0
  {
  }

  /**
   * Bin 0 of the transform of `ys` is the sum of the samples, with no
   * imaginary part; from it the extractor reads a_0 = twice the mean of the
   * samples and b_0 = 0, so a_0 / 2 is the signal's average.
   */
  lemma DcCoefficientIsTwiceMean(ys: seq<real>, spectrum: seq<Complex>, nCoeff: nat)
    requires |spectrum| == |ys| && 0 < nCoeff
    requires CoefficientsOf(spectrum, nCoeff).Success?
    requires spectrum[0] == Complex(Sum(ys), 0.0)
    ensures CoefficientsOf(spectrum, nCoeff).value[0] == Coeff(2.0 * Mean(ys), 0.0)
  {
    var c := CoefficientsOf(spectrum, nCoeff).value[0];
    var nb := |ys| as real;
    assert c.a * nb == 2.0 * Sum(ys);
    assert Mean(ys) * nb == Sum(ys);
    assert nb > 0.0;
    ZeroProduct(c.a - 2.0 * Mean(ys), nb);
    ZeroProduct(c.b, nb);
  }
}
