/** Machine time, thread usage and price derived from the stitch count. */
module Production {

  /** The component's configurable rates. */
  datatype Config = Config(machineSpeed: real, pricePerThousand: real, baseFee: real)

  /** 800 stitches per minute, 1.5 per thousand stitches, a base fee of 5. */
  const DefaultConfig: Config := Config(800.0, 1.5, 5.0)

  const ThreadMetersPerThousand: real := 6.0

  /** stitches / machineSpeed: the time that, run at the machine's speed,
      sews exactly the estimated stitches. */
  function Minutes(stitches: int, machineSpeed: real): (m: real)
    requires machineSpeed != 0.0
    ensures m * machineSpeed == stitches as real
    ensures stitches >= 0 && machineSpeed > 0.0 ==> m >= 0.0
  {
    stitches as real / machineSpeed
  }

  /** stitches / 1000 * 6: six metres per thousand stitches. */
  function ThreadMeters(stitches: int): (t: real)
    ensures 1000.0 * t == ThreadMetersPerThousand * stitches as real
    ensures stitches >= 0 ==> t >= 0.0
  {
    (stitches as real / 1000.0) * ThreadMetersPerThousand
  }

  /** baseFee + stitches / 1000 * pricePerThousand. */
  function Price(stitches: int, cfg: Config): (p: real)
    ensures 1000.0 * (p - cfg.baseFee) == stitches as real * cfg.pricePerThousand
  {
    cfg.baseFee + (stitches as real / 1000.0) * cfg.pricePerThousand
  }

  /** More stitches never take less time on a machine of positive speed. */
  lemma MinutesMonotone(s1: int, s2: int, machineSpeed: real)
    requires s1 <= s2 && machineSpeed > 0.0
    ensures Minutes(s1, machineSpeed) <= Minutes(s2, machineSpeed)
  {
    var m1, m2 := Minutes(s1, machineSpeed), Minutes(s2, machineSpeed);
    if m1 > m2 {
      assert m1 * machineSpeed > m2 * machineSpeed;
    }
  }

  /** Thread usage is additive in the stitch count, hence non-decreasing. */
  lemma ThreadAdditive(s1: int, s2: int)
    ensures ThreadMeters(s1 + s2) == ThreadMeters(s1) + ThreadMeters(s2)
    ensures s2 >= 0 ==> ThreadMeters(s1) <= ThreadMeters(s1 + s2)
  {
  }

  /** For a non-negative rate the price never falls as stitches grow, and it
      strictly rises when the rate is positive; it never drops below the base fee. */
  lemma PriceMonotone(s1: int, s2: int, cfg: Config)
    requires s1 <= s2 && cfg.pricePerThousand >= 0.0
    ensures Price(s1, cfg) <= Price(s2, cfg)
    ensures s1 < s2 && cfg.pricePerThousand > 0.0 ==> Price(s1, cfg) < Price(s2, cfg)
    ensures s1 >= 0 ==> Price(s1, cfg) >= cfg.baseFee
  {
    var d := (s2 - s1) as real;
    assert Price(s2, cfg) - Price(s1, cfg) == d / 1000.0 * cfg.pricePerThousand;
    assert d >= 0.0;
    if s1 < s2 && cfg.pricePerThousand > 0.0 {
      assert d / 1000.0 * cfg.pricePerThousand > 0.0;
    }
  }

  /** 250000 stitches with the default rates: 312.5 minutes, 1500 m, 380. */
  lemma DefaultRatesExample()
    ensures Minutes(250000, DefaultConfig.machineSpeed) == 312.5
    ensures ThreadMeters(250000) == 1500.0
    ensures Price(250000, DefaultConfig) == 380.0
  {
  }
}
