/** The signal quality percentages that the Sony demodulator driver computes from its measurements. */
module SignalQuality {
  import opened Arithmetic
  import opened Bytes
  import opened SonyMath

  datatype Error = OtherError | DeviceError(code: nat)

  /** What a measurement delivered. */
  datatype Reading<T> = Got(value: T) | Failed(error: Error)

  datatype Result = Quality(percent: nat) | Fail(error: Error)

  lemma DivisionRises(a: nat, c: nat, b: nat)
    requires b > 0 && a <= c
    ensures 0 <= a / b <= c / b
  {
    QuotientBounds(a, b);
    if a / b > c / b {
      Product(c / b + 1, a / b, b, b);
      assert false;
    }
  }

  lemma TruncatedRises(a: int, c: int, b: int)
    requires b > 0 && a <= c
    ensures Truncated(a, b) <= Truncated(c, b)
  {
    if a >= 0 {
      DivisionRises(a, c, b);
    } else if c < 0 {
      DivisionRises(-c, -a, b);
    } else {
      QuotientBounds(-a, b);
      QuotientBounds(c, b);
    }
  }

  /* ---------- DVB-T ---------- */

  /** C/N in thousandths of a dB that a profile-1 receiver needs: a row per constellation, a column per code rate. */
  const REQUIRED_CN: seq<seq<int>> :=
    [[5100, 6900, 7900, 8900, 9700],
     [10800, 13100, 14600, 15600, 16000],
     [16500, 18700, 20200, 21600, 22500]]

  datatype Tps = Tps(constellation: nat, rateHP: nat)

  predicate TpsKnown(tps: Tps) {
    tps.constellation < 3 && tps.rateHP < 5
  }

  function RequiredCn(tps: Tps): (cn: int)
    requires TpsKnown(tps)
    ensures 5100 <= cn <= 22500
  {
    REQUIRED_CN[tps.constellation][tps.rateHP]
  }

  /** The share of the bit error rate, in thousandths of a percent; the rate is in units of 1e-7. */
  function BerShare(ber: nat): (share: nat)
  {
    if ber == 0 then 100000
    else
      var share := 20 * (7000 - 10 * Log10Of(ber)) - 40000;
      if share < 0 then 0 else share
  }

  /** The quality at a distance from the required C/N, by a share of the bit error rate. */
  function QualityT(cnRel: int, share: nat): (q: int) {
    if cnRel < -7000 then 0
    else if cnRel >= 3000 then (share + 500) / 1000
    else ((Truncated(cnRel - 3000, 10) + 1000) * share + 500000) / 1000000
  }

  function DvbTQuality(tps: Tps, ber: nat, cn: int): int
    requires TpsKnown(tps)
  {
    QualityT(AsS32(cn - RequiredCn(tps)), BerShare(ber))
  }

  method MonitorTQuality(tps: Reading<Tps>, ber: Reading<nat>, cn: Reading<int>) returns (r: Result)
    requires ber.Got? ==> ber.value < 0x1_0000_0000
    requires cn.Got? ==> -0x8000_0000 <= cn.value < 0x8000_0000
    ensures tps.Failed? ==> r == Fail(tps.error)
    ensures tps.Got? && ber.Failed? ==> r == Fail(ber.error)
    ensures tps.Got? && ber.Got? && cn.Failed? ==> r == Fail(cn.error)
    ensures tps.Got? && ber.Got? && cn.Got? && !TpsKnown(tps.value) ==> r == Fail(OtherError)
    ensures tps.Got? && ber.Got? && cn.Got? && TpsKnown(tps.value) ==>
              r.Quality? && r.percent == DvbTQuality(tps.value, ber.value, cn.value) <= 100
  {
    if tps.Failed? {
      return Fail(tps.error);
    }
    if ber.Failed? {
      return Fail(ber.error);
    }
    if cn.Failed? {
      return Fail(cn.error);
    }
    if tps.value.constellation >= 3 || tps.value.rateHP >= 5 {
      return Fail(OtherError);
    }
    var cnRel := AsS32(cn.value - REQUIRED_CN[tps.value.constellation][tps.value.rateHP]);
    if cnRel < -7 * 1000 {
      return Quality(0);
    }
    var berSqi := BerSqi(ber.value);
    var quality := QualityFrom(cnRel, berSqi);
    return Quality(quality);
  }

  method BerSqi(ber: nat) returns (berSqi: nat)
    requires ber < 0x1_0000_0000
    ensures berSqi == BerShare(ber) <= 100000
  {
    BerShareRange(ber);
    var sqi: int;
    if ber == 0 {
      sqi := 100 * 1000;
    } else {
      sqi := AsS32(10 * Log10Of(ber));
      sqi := 20 * (7 * 1000 - sqi) - 40 * 1000;
      if sqi < 0 {
        sqi := 0;
      }
    }
    berSqi := sqi;
  }

  method QualityFrom(cnRel: int, berSqi: nat) returns (quality: nat)
    requires -7000 <= cnRel < 0x8000_0000 && berSqi <= 100000
    ensures quality == QualityT(cnRel, berSqi) <= 100
  {
    QualityTRange(cnRel, berSqi);
    var q: int;
    if cnRel >= 3 * 1000 {
      q := Wrap8((berSqi + 500) / 1000);
    } else {
      var tmp := Truncated(cnRel - 3 * 1000, 10) + 1000;
      var product := tmp * berSqi;
      hide Truncated;
      q := Wrap8(AsS32(AsS32(product) + 5 * 1000 * 1000 / 10) / (1000 * 1000));
    }
    if q > 100 {
      q := 100;
    }
    quality := q;
  }

  lemma BerShareRange(ber: nat)
    requires ber < 0x1_0000_0000
    ensures BerShare(ber) <= 100000
    ensures ber > 0 ==> -152600 <= 20 * (7000 - 10 * Log10Of(ber)) - 40000 <= 100000
  {
    Log10Range(ber);
  }

  lemma Scaling(t: int, share: nat)
    requires 0 <= t <= 1000 && share <= 100000
    ensures 0 <= t * share <= 1000 * share
  {}

  lemma QualityTRange(cnRel: int, share: nat)
    requires share <= 100000
    ensures 0 <= QualityT(cnRel, share) <= 100
    ensures -7000 <= cnRel < 3000 ==> 0 <= Truncated(cnRel - 3000, 10) + 1000 <= 1000
    ensures -7000 <= cnRel < 3000 ==> 0 <= (Truncated(cnRel - 3000, 10) + 1000) * share <= 100000000
  {
    if -7000 <= cnRel < 3000 {
      Scaling(Truncated(cnRel - 3000, 10) + 1000, share);
    }
  }

  /**
   * Within 0.59 of a percent of the Nordig formula ((C/N - 3) / 10 + 1) * BER share where that is below the full
   * share.
   */
  lemma QualityTIsNordig(cnRel: int, share: nat)
    requires -7000 <= cnRel < 3000 && share <= 100000
    ensures (cnRel + 7000) * share - 5000000 < 10000000 * QualityT(cnRel, share)
    ensures 10000000 * QualityT(cnRel, share) <= (cnRel + 7000) * share + 5900000
  {
    var t := Truncated(cnRel - 3000, 10) + 1000;
    var rest := 10 * t - (cnRel + 7000);
    assert 0 <= rest <= 9;
    assert 10 * (t * share) == (cnRel + 7000) * share + rest * share;
    assert 0 <= rest * share <= 9 * 100000;
  }

  /** A better C/N or a better share never lowers the quality. */
  lemma QualityTRises(cnRel: int, better: int, share: nat, more: nat)
    requires cnRel <= better && share <= more <= 100000
    ensures QualityT(cnRel, share) <= QualityT(better, more)
  {
    QualityTRange(better, more);
    if -7000 <= cnRel < 3000 {
      var t := Truncated(cnRel - 3000, 10) + 1000;
      QualityTRange(cnRel, share);
      if better < 3000 {
        TruncatedRises(cnRel - 3000, better - 3000, 10);
        Product(t, Truncated(better - 3000, 10) + 1000, share, more);
      } else {
        Product(t, 1000, share, more);
      }
    }
  }

  lemma BerShareFalls(ber: nat, worse: nat)
    requires ber <= worse < 0x1_0000_0000
    ensures BerShare(worse) <= BerShare(ber)
  {
    BerShareRange(worse);
    OtherBasesRise(ber, worse);
  }

  /** One error in ten million bits leaves the full share. */
  lemma FullShareAtOne()
    ensures BerShare(1) == 100000
  {
    IndexInBytes(1);
    assert Log2Of(1) == 0;
  }

  /**
   * Every factor of ten takes 20 percent off, to within two fifths of a percent, until at one error in a hundred bits
   * next to nothing is left.
   */
  lemma {:induction false} ShareAtDecade(k: nat)
    requires k <= 9
    ensures k <= 4 ==> -200 <= BerShare(Pow(10, k)) - (100000 - 20000 * k) <= 400
    ensures k == 5 ==> BerShare(Pow(10, k)) <= 400
    ensures k > 5 ==> BerShare(Pow(10, k)) == 0
  {
    Log10AtDecade(k);
    hide Pow, Log10Of;
  }

  /** Over all rates the share follows the true decimal logarithm as closely as the driver's does. */
  lemma ShareFollowsLog10(ber: nat)
    requires 0 < ber < 0x1_0000_0000 && BerShare(ber) > 0
    ensures BerShare(ber) % 200 == 0 && BerShare(ber) <= 100000
    ensures Pow(10, (100000 - BerShare(ber)) / 200) < 100 * Pow(ber, 100)
    ensures Pow(ber, 100) < Pow(10, (100000 - BerShare(ber)) / 200 + 3)
  {
    hide Pow, Log10Of;
    BerShareRange(ber);
    Log10Close(ber);
    assert (100000 - BerShare(ber)) / 200 == Log10Of(ber);
  }

  /** Fewer bit errors and a higher C/N never give a lower DVB-T quality. */
  lemma DvbTQualityMonotone(tps: Tps, ber: nat, worseBer: nat, cn: int, betterCn: int)
    requires TpsKnown(tps) && ber <= worseBer < 0x1_0000_0000
    requires -0x8000_0000 + RequiredCn(tps) <= cn <= betterCn < 0x8000_0000
    ensures 0 <= DvbTQuality(tps, worseBer, cn) <= DvbTQuality(tps, ber, betterCn) <= 100
  {
    hide BerShare, QualityT;
    BerShareRange(ber);
    BerShareRange(worseBer);
    BerShareFalls(ber, worseBer);
    QualityTRange(cn - RequiredCn(tps), BerShare(worseBer));
    QualityTRange(betterCn - RequiredCn(tps), BerShare(ber));
    QualityTRises(cn - RequiredCn(tps), betterCn - RequiredCn(tps), BerShare(worseBer), BerShare(ber));
  }

  /**
   * A C/N reading is rated no higher than every better one exactly when subtracting the required C/N does not wrap,
   * or errors spoil all.
   */
  lemma DvbTMonotoneIffNoWrap(tps: Tps, ber: nat, cn: int)
    requires TpsKnown(tps) && ber < 0x1_0000_0000
    requires -0x8000_0000 <= cn < 0x8000_0000
    ensures (forall better | cn <= better < 0x8000_0000 :: DvbTQuality(tps, ber, cn) <= DvbTQuality(tps, ber, better))
            <==> cn - RequiredCn(tps) >= -0x8000_0000 || BerShare(ber) < 500
  {
    hide BerShare;
    BerShareRange(ber);
    if cn - RequiredCn(tps) >= -0x8000_0000 {
      forall better | cn <= better < 0x8000_0000 ensures DvbTQuality(tps, ber, cn) <= DvbTQuality(tps, ber, better) {
        DvbTQualityMonotone(tps, ber, ber, cn, better);
      }
    } else if BerShare(ber) < 500 {
      assert AsS32(cn - RequiredCn(tps)) >= 3000;
      forall better | cn <= better < 0x8000_0000 ensures 0 <= DvbTQuality(tps, ber, better) {
        QualityTRange(AsS32(better - RequiredCn(tps)), BerShare(ber));
      }
    } else {
      assert AsS32(cn - RequiredCn(tps)) >= 3000;
      assert DvbTQuality(tps, ber, -8000) == 0;
    }
  }

  /* ---------- DVB-T2 ---------- */

  /** MER in thousandths of a dB where the picture fails: a row per constellation, a column per code rate. */
  const FAILING_MER: seq<seq<int>> :=
    [[0, 1200, 2200, 3400, 3900, 4400],
     [5500, 7000, 8000, 9000, 10000, 10800],
     [9800, 11500, 12700, 14200, 15300, 15800],
     [13600, 15800, 17000, 19000, 20100, 20900]]

  const SNR_LIMIT: seq<seq<int>> :=
    [[2500, 3800, 4600, 5600, 6200, 6700],
     [7400, 9100, 10300, 9700, 12400, 13000],
     [11300, 13500, 15000, 16800, 17800, 17700],
     [14600, 17500, 19600, 22000, 23700, 24600]]

  const MER_MAX: int := 31500
  const CNR_MAX: int := 24500
  const CNR_MARGIN: int := 1500

  datatype Plp = Plp(constellation: nat, codeRate: nat)

  predicate PlpKnown(plp: Plp) {
    plp.constellation <= 3 && plp.codeRate <= 5
  }

  function MerMin(plp: Plp): (mer: int)
    requires PlpKnown(plp)
    ensures 0 <= mer <= 20900
  {
    FAILING_MER[plp.constellation][plp.codeRate]
  }

  function SnrMin(plp: Plp): (snr: int)
    requires PlpKnown(plp)
    ensures 1000 <= snr <= 23100
  {
    SNR_LIMIT[plp.constellation][plp.codeRate] - CNR_MARGIN
  }

  /** The place of a reading between two limits in percent, with the wrap-around of 32-bit arithmetic. */
  function Part(x: int, low: int, high: int): (p: int)
    requires low < high
    ensures 0 <= p <= 100
  {
    var t := Truncated(AsS32(AsS32(x - low) * 100), high - low);
    if t > 100 then 100 else if t < 0 then 0 else t
  }

  function DvbT2Quality(plp: Plp, mer: int, snr: int): (q: int)
    requires PlpKnown(plp)
    ensures 0 <= q <= 100
  {
    (Part(mer, MerMin(plp), MER_MAX) + Part(snr, SnrMin(plp), CNR_MAX)) / 2
  }

  method MonitorT2Quality(fer: Reading<nat>, plp: Reading<Plp>, mer: Reading<int>, snr: Reading<int>)
      returns (r: Result)
    ensures fer.Got? && fer.value > 0 ==> r == Quality(0)
    ensures !(fer.Got? && fer.value > 0) ==>
              if plp.Failed? then r == Fail(plp.error)
              else if !PlpKnown(plp.value) then r == Fail(OtherError)
              else if mer.Failed? then r == Fail(mer.error)
              else if snr.Failed? then r == Fail(snr.error)
              else r.Quality? && r.percent == DvbT2Quality(plp.value, mer.value, snr.value)
  {
    if fer.Got? && fer.value > 0 {
      return Quality(0);
    }
    if plp.Failed? {
      return Fail(plp.error);
    }
    if plp.value.codeRate > 5 || plp.value.constellation > 3 {
      return Fail(OtherError);
    }
    if mer.Failed? {
      return Fail(mer.error);
    }
    if snr.Failed? {
      return Fail(snr.error);
    }
    var merFails := FAILING_MER[plp.value.constellation][plp.value.codeRate];
    var snrFails := SNR_LIMIT[plp.value.constellation][plp.value.codeRate] - CNR_MARGIN;
    assert merFails == MerMin(plp.value) && snrFails == SnrMin(plp.value);
    var merTmp := AsS32(AsS32(mer.value - merFails) * 100);
    merTmp := Truncated(merTmp, MER_MAX - merFails);
    if merTmp > 100 {
      merTmp := 100;
    } else if merTmp < 0 {
      merTmp := 0;
    }
    var snrTmp := AsS32(AsS32(snr.value - snrFails) * 100);
    snrTmp := Truncated(snrTmp, CNR_MAX - snrFails);
    if snrTmp > 100 {
      snrTmp := 100;
    } else if snrTmp < 0 {
      snrTmp := 0;
    }
    merTmp := (merTmp + snrTmp) / 2;
    r := Quality(if merTmp > 100 then 100 else Wrap8(merTmp));
  }

  /** The product with 100 fits into 32 bits up to this distance from the lower limit. */
  predicate Fits(x: int, low: int) {
    -21474836 <= x - low <= 21474836
  }

  /**
   * Where nothing wraps, the part is 0 up to the lower limit, 100 from the upper limit on, and the rounded-down
   * percentage between.
   */
  lemma PartIsPercentage(x: int, low: int, high: int)
    requires low < high && Fits(x, low)
    ensures Part(x, low, high) == 0 <==> (x - low) * 100 < high - low
    ensures Part(x, low, high) == 100 <==> x >= high
    ensures low <= x <= high ==> 0 <= (x - low) * 100 - Part(x, low, high) * (high - low) < high - low
  {
    var n, d := (x - low) * 100, high - low;
    if n >= 0 {
      assert n / d * d <= n < n / d * d + d;
      if x >= high {
        FullQuotient(n, d, 100);
      } else if n >= d {
        FullQuotient(n, d, 1);
        ShortQuotient(n, d, 100);
      } else {
        ShortQuotient(n, d, 1);
      }
    } else {
      QuotientBounds(-n, d);
    }
  }

  lemma FullQuotient(n: nat, d: nat, k: nat)
    requires d > 0 && n >= k * d
    ensures n / d >= k
  {
    if n / d < k {
      Product(n / d + 1, k, d, d);
      assert false;
    }
  }

  lemma ShortQuotient(n: nat, d: nat, k: nat)
    requires d > 0 && n < k * d
    ensures n / d < k
  {
    if n / d >= k {
      Product(k, n / d, d, d);
      assert false;
    }
  }

  lemma PartRises(x: int, y: int, low: int, high: int)
    requires low < high && x <= y && Fits(x, low) && Fits(y, low)
    ensures Part(x, low, high) <= Part(y, low, high)
  {
    TruncatedRises((x - low) * 100, (y - low) * 100, high - low);
  }

  /** A better MER and a better SNR never give a lower DVB-T2 quality. */
  lemma DvbT2QualityMonotone(plp: Plp, mer: int, betterMer: int, snr: int, betterSnr: int)
    requires PlpKnown(plp) && mer <= betterMer && snr <= betterSnr
    requires Fits(mer, MerMin(plp)) && Fits(betterMer, MerMin(plp))
    requires Fits(snr, SnrMin(plp)) && Fits(betterSnr, SnrMin(plp))
    ensures DvbT2Quality(plp, mer, snr) <= DvbT2Quality(plp, betterMer, betterSnr)
  {
    PartRises(mer, betterMer, MerMin(plp), MER_MAX);
    PartRises(snr, betterSnr, SnrMin(plp), CNR_MAX);
  }

  /**
   * Over any range of readings around the limits the part never falls exactly when the products with 100 fit at both
   * its ends.
   */
  lemma PartRisesIffFits(low: int, high: int, first: int, last: int)
    requires 0 <= low < high && high - low <= 21474836
    requires -0x8000_0000 <= first <= low && high <= last < 0x8000_0000
    ensures (forall x, y | first <= x <= y <= last :: Part(x, low, high) <= Part(y, low, high))
            <==> Fits(first, low) && Fits(last, low)
  {
    PartIsPercentage(low, low, high);
    PartIsPercentage(high, low, high);
    if Fits(first, low) && Fits(last, low) {
      forall x, y | first <= x <= y <= last ensures Part(x, low, high) <= Part(y, low, high) {
        PartRises(x, y, low, high);
      }
    } else if !Fits(last, low) {
      WrapsDown(low, high);
      assert Part(high, low, high) > Part(low + 21474837, low, high);
    } else {
      WrapsUp(low, high);
      assert Part(low - 21474837, low, high) > Part(low, low, high);
    }
  }

  lemma WrapsDown(low: int, high: int)
    requires 0 <= low < high
    ensures Part(low + 21474837, low, high) == 0
  {
    assert AsS32(AsS32(21474837) * 100) == -2147483596;
    QuotientBounds(2147483596, high - low);
  }

  lemma WrapsUp(low: int, high: int)
    requires 0 <= low < high && high - low <= 21474836
    ensures Part(low - 21474837, low, high) > 0
  {
    assert AsS32(AsS32(-21474837) * 100) == 2147483596;
    FullQuotient(2147483596, high - low, 1);
  }
}
