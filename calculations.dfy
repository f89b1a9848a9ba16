/**
 * The dimension and bleed calculator and the price calculator
 * (src/utils/calculations.ts): trim-size and caliper tables, spine width,
 * cover sheet size, bleed per binding, and tiered price arithmetic.
 */
module Calculations {
  import opened Wrappers
  import opened Book

  datatype TrimSize = TrimSize(width: real, height: real)

  /** FORMAT_DIMENSIONS; `custom` holds a 0 x 0 placeholder. */
  function FormatDimensions(f: Format): TrimSize {
    match f
    case A4 => TrimSize(210.0, 297.0)
    case A5 => TrimSize(148.0, 210.0)
    case A6 => TrimSize(105.0, 148.0)
    case A4Landscape => TrimSize(297.0, 210.0)
    case A5Landscape => TrimSize(210.0, 148.0)
    case Cm17x24 => TrimSize(170.0, 240.0)
    case Cm15_5x22 => TrimSize(155.0, 220.0)
    case Cm21x21 => TrimSize(210.0, 210.0)
    case Cm21x28 => TrimSize(210.0, 280.0)
    case Cm13x19 => TrimSize(130.0, 190.0)
    case Custom => TrimSize(0.0, 0.0)
  }

  /** PAPER_THICKNESS: caliper in millimetres per page. */
  function PaperThickness(p: PaperType): (t: real)
    ensures 0.0 < t < 0.1
  {
    match p
    case Recycling80 => 0.05
    case Offset80 => 0.055
    case Offset100 => 0.065
    case Offset120 => 0.08
    case Offset160 => 0.098
    case Volume80_1_5 => 0.061
    case Volume90_1_8 => 0.0783
    case ArtMatt100 => 0.042
    case ArtGloss100 => 0.036
    case ArtMatt135 => 0.058
    case ArtGloss135 => 0.052
    case ArtMatt170 => 0.07
    case ArtGloss170 => 0.064
  }

  /** FORMAT_MULTIPLIERS for pricing. */
  function FormatMultiplier(f: Format): real {
    match f
    case A4 => 1.2
    case A5 => 1.0
    case A6 => 0.8
    case A4Landscape => 1.2
    case A5Landscape => 1.0
    case Cm17x24 => 1.1
    case Cm15_5x22 => 1.0
    case Cm21x21 => 1.1
    case Cm21x28 => 1.15
    case Cm13x19 => 0.9
    case Custom => 1.3
  }

  /** JavaScript `x || fallback` on an optional number: a missing or zero value falls back. */
  function OrFallback(x: Option<real>, fallback: real): real {
    if x.None? || x.value == 0.0 then fallback else x.value
  }

  /** The trim size: from `customFormat` when the format is custom and it is present, otherwise from the table. */
  function TrimOf(format: Format, customFormat: Option<CustomFormat>): TrimSize {
    if format == Custom && customFormat.Some? then
      TrimSize(OrFallback(customFormat.value.width, 210.0), OrFallback(customFormat.value.height, 297.0))
    else
      FormatDimensions(format)
  }

  /** Added to the spine of a hardcover for the hinge and board material. */
  function SpineExtra(b: Binding): real {
    if b == Hardcover then 6.0 else 0.0
  }

  /** getBleedMeasurements: 14.5 / 13 mm for hardcover, 3 / 3 mm for softcover. */
  function GetBleedMeasurements(isHardcover: bool): (m: BleedMeasurement)
    ensures m.horizontal > 0.0 && m.vertical > 0.0
    ensures isHardcover ==> m.horizontal > m.vertical
    ensures !isHardcover ==> m.horizontal == m.vertical
  {
    BleedMeasurement(if isHardcover then 14.5 else 3.0, if isHardcover then 13.0 else 3.0)
  }

  /**
   * calculateDimensions. Its contract ties it to the bleed: removing the bleed on
   * both edges of each axis leaves exactly two trim widths plus the spine, and the
   * trim height; the spine is the page stack plus the binding's extra.
   */
  function CalculateDimensions(c: BookConfig): (d: Dimensions)
    ensures d.spineWidth - SpineExtra(c.bindingType) == c.pageCount as real * PaperThickness(c.paperType)
    ensures d.coverWidth - 2.0 * GetBleedMeasurements(c.bindingType == Hardcover).horizontal
            == 2.0 * TrimOf(c.format, c.customFormat).width + d.spineWidth
    ensures d.coverHeight - 2.0 * GetBleedMeasurements(c.bindingType == Hardcover).vertical
            == TrimOf(c.format, c.customFormat).height
  {
    var trim := TrimOf(c.format, c.customFormat);
    var spineWidth :=
      if c.bindingType == Hardcover
      then c.pageCount as real * PaperThickness(c.paperType) + 6.0
      else c.pageCount as real * PaperThickness(c.paperType);
    var coverWidth :=
      if c.bindingType == Hardcover
      then 2.0 * trim.width + spineWidth + 29.0
      else 2.0 * trim.width + spineWidth + 6.0;
    var coverHeight :=
      if c.bindingType == Hardcover
      then trim.height + 26.0
      else trim.height + 6.0;
    Dimensions(spineWidth, coverWidth, coverHeight)
  }

  /**
   * Trim resolution: named formats come from the table; a custom format with a
   * `customFormat` object falls back to 210 and 297 per missing or zero field,
   * independently; a custom format without one gets the 0 x 0 placeholder.
   */
  lemma TrimResolution(format: Format, cf: Option<CustomFormat>)
    ensures format != Custom ==> TrimOf(format, cf) == FormatDimensions(format)
    ensures format == Custom && cf.None? ==> TrimOf(format, cf) == TrimSize(0.0, 0.0)
    ensures format == Custom && cf.Some? ==>
      && TrimOf(format, cf).width == (if cf.value.width.None? || cf.value.width.value == 0.0 then 210.0 else cf.value.width.value)
      && TrimOf(format, cf).height == (if cf.value.height.None? || cf.value.height.value == 0.0 then 297.0 else cf.value.height.value)
  {
  }

  /** The allowances the cover adds around the trim: 29 / 26 mm for hardcover, 6 / 6 mm for softcover. */
  lemma CoverAllowances(c: BookConfig)
    ensures var d := CalculateDimensions(c); var t := TrimOf(c.format, c.customFormat);
      && d.coverWidth == 2.0 * t.width + d.spineWidth + (if c.bindingType == Hardcover then 29.0 else 6.0)
      && d.coverHeight == t.height + (if c.bindingType == Hardcover then 26.0 else 6.0)
  {
  }

  /** The spine grows by exactly one caliper per page, whatever the binding and format. */
  lemma SpineGrowsPerPage(c: BookConfig)
    ensures CalculateDimensions(c.(pageCount := c.pageCount + 1)).spineWidth
            == CalculateDimensions(c).spineWidth + PaperThickness(c.paperType)
  {
  }

  /** Worked example: hardcover, A4, 135g art matt, 100 pages gives spine 11.8 and a 460.8 x 323 sheet. */
  lemma HardcoverA4Example(c: BookConfig)
    requires c.bindingType == Hardcover && c.format == A4 && c.paperType == ArtMatt135 && c.pageCount == 100
    ensures CalculateDimensions(c) == Dimensions(11.8, 460.8, 323.0)
  {
  }

  /** Worked example: softcover, A5, 80g offset, 40 pages gives spine 2.2 and a 304.2 x 216 sheet. */
  lemma SoftcoverA5Example(c: BookConfig)
    requires c.bindingType == Softcover && c.format == A5 && c.paperType == Offset80 && c.pageCount == 40
    ensures CalculateDimensions(c) == Dimensions(2.2, 304.2, 216.0)
  {
  }

  // ---------------------------------------------------------------- price

  datatype PriceBreakdown = PriceBreakdown(basePrice: real, optionsPrice: real, quantityPrice: real, discount: real, total: real)

  /** The bulk discount tiers: 20% from 100 copies, 15% from 50, 10% from 20, 5% from 10. */
  function DiscountRate(quantity: int): (rate: real)
    ensures 0.0 <= rate <= 0.2
  {
    if quantity >= 100 then 0.2
    else if quantity >= 50 then 0.15
    else if quantity >= 20 then 0.1
    else if quantity >= 10 then 0.05
    else 0.0
  }

  /** A larger order never gets a smaller discount rate. */
  lemma DiscountRateMonotone(q1: int, q2: int)
    requires q1 <= q2
    ensures DiscountRate(q1) <= DiscountRate(q2)
  {
  }

  /** The design-service surcharge applies to a professional cover whose design service is enabled. */
  function DesignCharge(c: BookConfig): real {
    if c.isProfessionalCover && c.designService.enabled then 50.0 else 0.0
  }

  /** `basePrice`: pages times the per-page paper price times the format multiplier, plus 15 (hardcover) or 5 (softcover). */
  function BasePrice(c: BookConfig, paperPrice: PaperType -> real): real {
    var basePagePrice := paperPrice(c.paperType);
    var formatMultiplier := FormatMultiplier(c.format);
    var basePrice := c.pageCount as real * basePagePrice * formatMultiplier;
    basePrice + (if c.bindingType == Hardcover then 15.0 else 5.0)
  }

  /** `optionsPrice`: the accumulator of the source, one conditional addition per option. */
  function OptionsPrice(c: BookConfig): real {
    var o1 := 0.0 + DesignCharge(c);
    var o2 := if c.isColorPages then o1 + c.pageCount as real * 0.15 else o1;
    var o3 := if c.coverFinish == Glossy then o2 + 2.0 else o2;
    if c.bindingType == Hardcover && Truthy(c.hardcoverOptions.ribbonColor) then o3 + 3.0 else o3
  }

  /**
   * One copy's price plus `q - 1` more copies is `q` copies, and taking the rate
   * of that sum off leaves `1 - rate` of it.
   */
  lemma {:induction false} TieredTotal(s: real, q: real, rate: real, quantityPrice: real, discount: real)
    requires quantityPrice == s * (q - 1.0) && discount == rate * (s + quantityPrice)
    ensures s + quantityPrice == s * q
    ensures discount == rate * s * q
    ensures s + quantityPrice - discount == (1.0 - rate) * s * q
  {
    calc {
      s + quantityPrice;
      s + (s * q - s);
      s * q;
    }
    calc {
      s * q - rate * (s * q);
      (1.0 - rate) * (s * q);
      (1.0 - rate) * s * q;
    }
    assert rate * s * q == rate * (s * q);
  }

  /**
   * The relations between the amounts of a breakdown for `quantity` copies: the
   * undiscounted sum for all copies is the per-copy sum times the quantity, the
   * discount is the tier's rate of it, and the total is the rest.
   */
  predicate PricedFor(p: PriceBreakdown, quantity: int) {
    var perCopy := p.basePrice + p.optionsPrice;
    && perCopy + p.quantityPrice == perCopy * quantity as real
    && p.discount == DiscountRate(quantity) * perCopy * quantity as real
    && p.total == (1.0 - DiscountRate(quantity)) * perCopy * quantity as real
  }

  /**
   * calculatePrice. The per-page paper price table is not part of this model and is
   * a parameter.
   */
  function CalculatePrice(c: BookConfig, paperPrice: PaperType -> real): (p: PriceBreakdown)
    ensures p.basePrice == BasePrice(c, paperPrice) && p.optionsPrice == OptionsPrice(c)
    ensures PricedFor(p, c.quantity)
  {
    Totals(BasePrice(c, paperPrice), OptionsPrice(c), c.quantity)
  }

  /** The quantity, discount and total steps of calculatePrice, from the two per-copy sums. */
  function Totals(basePrice: real, optionsPrice: real, quantity: int): (p: PriceBreakdown)
    ensures p.basePrice == basePrice && p.optionsPrice == optionsPrice
    ensures PricedFor(p, quantity)
  {
    var quantityPrice := (basePrice + optionsPrice) * (quantity - 1) as real;
    // The discount if-chain: the tier's rate of the undiscounted sum.
    var discount := DiscountRate(quantity) * (basePrice + optionsPrice + quantityPrice);
    var total := basePrice + optionsPrice + quantityPrice - discount;
    assert (quantity - 1) as real == quantity as real - 1.0;
    TieredTotal(basePrice + optionsPrice, quantity as real, DiscountRate(quantity), quantityPrice, discount);
    PriceBreakdown(basePrice, optionsPrice, quantityPrice, discount, total)
  }

  lemma {:induction false} ScaledRate(rate: real, g: real)
    requires 0.0 <= rate <= 0.2 && g >= 0.0
    ensures 0.0 <= rate * g <= 0.2 * g
  {
    assert 0.2 * g - rate * g == (0.2 - rate) * g;
  }

  lemma {:induction false} NonNegativeProduct(a: real, b: real)
    requires a >= 0.0 && b >= 0.0
    ensures a * b >= 0.0
  {
  }

  /** With a non-negative per-copy price, the total lies between 80% and 100% of the undiscounted sum. */
  lemma {:induction false} TotalWithinDiscountRange(p: PriceBreakdown, quantity: int)
    requires PricedFor(p, quantity) && quantity >= 1 && p.basePrice + p.optionsPrice >= 0.0
    ensures var gross := (p.basePrice + p.optionsPrice) * quantity as real;
      0.8 * gross <= p.total <= gross
  {
    var perCopy, rate, q := p.basePrice + p.optionsPrice, DiscountRate(quantity), quantity as real;
    var gross := perCopy * q;
    NonNegativeProduct(perCopy, q);
    assert p.total == gross - rate * gross by {
      assert (1.0 - rate) * perCopy * q == (1.0 - rate) * (perCopy * q);
    }
    ScaledRate(rate, gross);
  }

  /** Hardcover binding adds 15 and softcover 5 to the base price; the options differ only by the ribbon, which a softcover ignores. */
  lemma BindingSurcharge(c: BookConfig, pp: PaperType -> real)
    ensures BasePrice(c.(bindingType := Hardcover), pp) == BasePrice(c.(bindingType := Softcover), pp) + 10.0
    ensures BasePrice(c.(bindingType := Softcover), pp) == c.pageCount as real * pp(c.paperType) * FormatMultiplier(c.format) + 5.0
    ensures !Truthy(c.hardcoverOptions.ribbonColor) ==>
      OptionsPrice(c.(bindingType := Hardcover)) == OptionsPrice(c.(bindingType := Softcover))
  {
  }

  /** Colour pages add 0.15 per page to the options price. */
  lemma ColourSurcharge(c: BookConfig)
    ensures OptionsPrice(c.(isColorPages := true)) == OptionsPrice(c.(isColorPages := false)) + 0.15 * c.pageCount as real
  {
  }

  /** A glossy finish adds 2 to the options price. */
  lemma GlossySurcharge(c: BookConfig)
    ensures OptionsPrice(c.(coverFinish := Glossy)) == OptionsPrice(c.(coverFinish := Matte)) + 2.0
  {
  }

  /** A ribbon colour adds 3 on a hardcover and nothing on a softcover; an empty colour string counts as none. */
  lemma RibbonSurcharge(c: BookConfig, ribbon: string)
    ensures var withRibbon := c.(hardcoverOptions := c.hardcoverOptions.(ribbonColor := Some(ribbon)));
            var without := c.(hardcoverOptions := c.hardcoverOptions.(ribbonColor := None));
      && OptionsPrice(withRibbon.(bindingType := Hardcover))
         == OptionsPrice(without.(bindingType := Hardcover)) + (if ribbon != "" then 3.0 else 0.0)
      && OptionsPrice(withRibbon.(bindingType := Softcover)) == OptionsPrice(without.(bindingType := Softcover))
  {
  }

  /** The design service adds 50 only to a professional cover; without one, enabling it changes nothing. */
  lemma DesignServiceSurcharge(c: BookConfig)
    ensures var on := c.(designService := c.designService.(enabled := true));
            var off := c.(designService := c.designService.(enabled := false));
      && OptionsPrice(on.(isProfessionalCover := true)) == OptionsPrice(off.(isProfessionalCover := true)) + 50.0
      && OptionsPrice(on.(isProfessionalCover := false)) == OptionsPrice(off.(isProfessionalCover := false))
  {
  }
}
