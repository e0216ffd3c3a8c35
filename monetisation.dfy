/**
 * The monetisation configuration schema: field bounds and the
 * `check_percentages` validator, and what they guarantee about a fee split.
 */
module Monetisation {
  import opened Models

  const MaxConfigNameLength: nat := 50

  /** The body of a configuration create/update request. */
  datatype ConfigIn = ConfigIn(name: string, feeBase: real, platformCutPct: real, posterSharePct: real)

  predicate Fraction(x: real) {
    0.0 <= x <= 1.0
  }

  /**
   * Schema validation: the field constraints are checked first, in field
   * order, and the percentages-sum validator runs only on fields that passed.
   */
  function Validate(c: ConfigIn): (r: Result<ConfigIn>)
    ensures r.Ok? <==>
      && |c.name| <= MaxConfigNameLength
      && c.feeBase > 0.0
      && Fraction(c.platformCutPct) && Fraction(c.posterSharePct)
      && c.platformCutPct + c.posterSharePct == 1.0
    ensures r.Ok? ==> r.value == c
    ensures |c.name| > MaxConfigNameLength ==> r == Err(Invalid(NameTooLong))
    ensures |c.name| <= MaxConfigNameLength && c.feeBase <= 0.0 ==> r == Err(Invalid(FeeNotPositive))
    ensures (|c.name| <= MaxConfigNameLength && c.feeBase > 0.0
             && !(Fraction(c.platformCutPct) && Fraction(c.posterSharePct)))
            ==> r == Err(Invalid(PercentageOutOfRange))
    ensures Fraction(c.platformCutPct) && Fraction(c.posterSharePct) && |c.name| <= MaxConfigNameLength
            && c.feeBase > 0.0 && c.platformCutPct + c.posterSharePct != 1.0
            ==> r == Err(Invalid(PercentagesDoNotSumToOne))
  {
    if |c.name| > MaxConfigNameLength then Err(Invalid(NameTooLong))
    else if c.feeBase <= 0.0 then Err(Invalid(FeeNotPositive))
    else if !Fraction(c.platformCutPct) || !Fraction(c.posterSharePct) then Err(Invalid(PercentageOutOfRange))
    else if c.platformCutPct + c.posterSharePct != 1.0 then Err(Invalid(PercentagesDoNotSumToOne))
    else Ok(c)
  }

  /** A stored configuration that the schema accepts. */
  predicate Admissible(cfg: MonetizationConfig) {
    Validate(ConfigIn(cfg.name, cfg.feeBase, cfg.platformCutPct, cfg.posterSharePct)).Ok?
  }

  /**
   * Under an admissible configuration the two shares of the base fee are
   * non-negative, neither exceeds the fee, and together they are exactly the fee.
   */
  lemma SplitIsExact(cfg: MonetizationConfig)
    requires Admissible(cfg)
    ensures cfg.feeBase > 0.0
    ensures cfg.feeBase * cfg.platformCutPct + cfg.feeBase * cfg.posterSharePct == cfg.feeBase
    ensures 0.0 <= cfg.feeBase * cfg.platformCutPct <= cfg.feeBase
    ensures 0.0 <= cfg.feeBase * cfg.posterSharePct <= cfg.feeBase
  {
    var b, p, q := cfg.feeBase, cfg.platformCutPct, cfg.posterSharePct;
    assert b * p + b * q == b * (p + q);
    MulBetween(b, p);
    MulBetween(b, q);
  }

  /** A fraction of a positive amount lies between zero and the amount. */
  lemma MulBetween(b: real, p: real)
    requires b > 0.0 && Fraction(p)
    ensures 0.0 <= b * p <= b
  {
    assert b * p <= b * 1.0;
  }
}
