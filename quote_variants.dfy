/** The variant generator of src/data/v2/quoteVariants.ts: from one scope and
    margin it derives the Conservative, Standard and Premium quotes. */
module QuoteVariants {
  import opened Wrappers
  import opened CostEngine
  import opened JsMath

  datatype Tier = Conservative | Standard | Premium

  datatype QuoteVariant = QuoteVariant(
    id: string,
    tier: Tier,
    description: string,
    items: seq<CostItem>,
    calculations: QuoteCalculations)

  /** The items whose quantity the generator rescales. */
  predicate IsLaborHourly(item: CostItem)
  {
    item.category == Labor && item.pricing == Hourly
  }

  /** `item.quantity || 0`: here an absent quantity reads as 0. */
  function QuantityOrZero(q: Option<real>): real
  {
    q.GetOr(0.0)
  }

  /** Conservative hours: 80% of the quantity, but at least one. */
  function Shrink(q: real): real
  {
    Max(1.0, q * 0.8)
  }

  /** Premium hours: 120% of the quantity. */
  function Stretch(q: real): real
  {
    q * 1.2
  }

  /** A conservative copy of a labor/hourly item: every field kept except the
      quantity, which becomes max(1, 0.8 q); any other item is passed through. */
  function Trimmed(item: CostItem): CostItem
  {
    if IsLaborHourly(item) then item.(quantity := Some(Shrink(QuantityOrZero(item.quantity)))) else item
  }

  /** A premium copy of a labor/hourly item, with 1.2 q hours. */
  function Buffered(item: CostItem): CostItem
  {
    if IsLaborHourly(item) then item.(quantity := Some(Stretch(QuantityOrZero(item.quantity)))) else item
  }

  /** `standardItems.map(...)` for the conservative scope. */
  function ConservativeItems(items: seq<CostItem>): seq<CostItem>
  {
    seq(|items|, i requires 0 <= i < |items| => Trimmed(items[i]))
  }

  /** `standardItems.map(...)` for the premium scope, before the push. */
  function BufferedItems(items: seq<CostItem>): seq<CostItem>
  {
    seq(|items|, i requires 0 <= i < |items| => Buffered(items[i]))
  }

  /** The synthetic item appended to the Premium scope. */
  function SupportItem(standardPrice: real): CostItem
  {
    CostItem("premium-support", "Priority Support & Consulting", Some("24/7 access and strategy calls"),
             Labor, Fixed, Some(standardPrice * 0.15), Some(1.0), None, Some(true))
  }

  function ConservativeMargin(profitMargin: real): real
  {
    Max(10.0, profitMargin - 5.0)
  }

  function PremiumMargin(profitMargin: real): real
  {
    profitMargin + 5.0
  }

  const ConservativeText := "Essential scope, lean timeline, lower cost."
  const StandardText := "Recommended scope for best results."
  const PremiumText := "All-inclusive with priority support and extra buffer."

  /** The premium scope: the buffered copy with the support item pushed onto it,
      priced from the standard scope's total price. */
  function PremiumItems(items: seq<CostItem>, profitMargin: real): seq<CostItem>
  {
    BufferedItems(items) + [SupportItem(Quote(items, profitMargin).totalPrice)]
  }

  /** The specification of `generateVariants`. */
  function Variants(standardItems: seq<CostItem>, profitMargin: real): seq<QuoteVariant>
  {
    var conservativeItems := ConservativeItems(standardItems);
    var premiumItems := PremiumItems(standardItems, profitMargin);
    [ QuoteVariant("conservative", Conservative, ConservativeText, conservativeItems,
                   Quote(conservativeItems, ConservativeMargin(profitMargin))),
      QuoteVariant("standard", Standard, StandardText, standardItems, Quote(standardItems, profitMargin)),
      QuoteVariant("premium", Premium, PremiumText, premiumItems,
                   Quote(premiumItems, PremiumMargin(profitMargin))) ]
  }

  /** Runs the calculator on the standard scope, then on the conservative copy,
      then on the buffered copy after pushing the support item onto it. */
  method GenerateVariants(standardItems: seq<CostItem>, profitMargin: real) returns (variants: seq<QuoteVariant>)
    ensures variants == Variants(standardItems, profitMargin)
  {
    var standardCalc := CalculateQuote(standardItems, profitMargin);
    var conservativeItems := ConservativeItems(standardItems);
    var conservativeCalc := CalculateQuote(conservativeItems, Max(10.0, profitMargin - 5.0));
    var premiumItems := BufferedItems(standardItems);
    premiumItems := premiumItems + [SupportItem(standardCalc.totalPrice)];
    var premiumCalc := CalculateQuote(premiumItems, profitMargin + 5.0);
    variants := [
      QuoteVariant("conservative", Conservative, ConservativeText, conservativeItems, conservativeCalc),
      QuoteVariant("standard", Standard, StandardText, standardItems, standardCalc),
      QuoteVariant("premium", Premium, PremiumText, premiumItems, premiumCalc)
    ];
  }

  // ---------------------------------------------------------------------------
  // Shape of the result

  /** Three variants in the fixed order conservative, standard, premium; the
      standard one is the input scope itself, priced at the unchanged margin;
      the other two are their own scopes priced at the adjusted margins. */
  lemma VariantsShape(items: seq<CostItem>, profitMargin: real)
    ensures var vs := Variants(items, profitMargin);
      && |vs| == 3
      && vs[0].id == "conservative" && vs[0].tier == Conservative
      && vs[1].id == "standard" && vs[1].tier == Standard
      && vs[2].id == "premium" && vs[2].tier == Premium
      && vs[0].items == ConservativeItems(items)
      && vs[1].items == items
      && vs[2].items == PremiumItems(items, profitMargin)
      && vs[0].calculations == Quote(ConservativeItems(items), ConservativeMargin(profitMargin))
      && vs[1].calculations == Quote(items, profitMargin)
      && vs[2].calculations == Quote(PremiumItems(items, profitMargin), PremiumMargin(profitMargin))
  {
  }

  /** The conservative scope has the input's length; a labor/hourly item differs
      from its original only in its quantity, which becomes max(1, 0.8 q) with a
      missing q read as 0, so it is at least one; every other item is unchanged. */
  lemma ConservativeScope(items: seq<CostItem>)
    ensures var c := ConservativeItems(items);
      && |c| == |items|
      && forall i :: 0 <= i < |items| ==>
           if IsLaborHourly(items[i]) then
             && c[i] == items[i].(quantity := c[i].quantity)
             && c[i].quantity == Some(Max(1.0, QuantityOrZero(items[i].quantity) * 0.8))
             && c[i].quantity.value >= 1.0
           else c[i] == items[i]
  {
  }

  /** The premium scope is the input with labor/hourly quantities scaled by 1.2
      (a missing q read as 0), followed by exactly one support item: labor,
      fixed, one unit, selected, priced at 15% of the standard total price. */
  lemma PremiumScope(items: seq<CostItem>, profitMargin: real)
    ensures var p := PremiumItems(items, profitMargin);
      && |p| == |items| + 1
      && (forall i :: 0 <= i < |items| ==>
           if IsLaborHourly(items[i]) then
             && p[i] == items[i].(quantity := p[i].quantity)
             && p[i].quantity == Some(QuantityOrZero(items[i].quantity) * 1.2)
           else p[i] == items[i])
      && p[|items|].id == "premium-support"
      && p[|items|].category == Labor && p[|items|].pricing == Fixed
      && p[|items|].quantity == Some(1.0) && p[|items|].isSelected == Some(true)
      && p[|items|].rate == Some(0.15 * Quote(items, profitMargin).totalPrice)
  {
  }

  // ---------------------------------------------------------------------------
  // Margins

  /** The conservative margin is five points lower but never below 10, so its
      profit is at least a tenth of a non-negative cost; the premium margin is
      five points higher with no cap. */
  lemma VariantMargins(items: seq<CostItem>, profitMargin: real)
    ensures ConservativeMargin(profitMargin) >= 10.0
    ensures profitMargin >= 15.0 ==> ConservativeMargin(profitMargin) == profitMargin - 5.0
    ensures PremiumMargin(profitMargin) > profitMargin
    ensures var c := Quote(ConservativeItems(items), ConservativeMargin(profitMargin));
      c.totalCost >= 0.0 ==> c.profitAmount >= c.totalCost / 10.0
  {
    PricedMargin(Tally(ConservativeItems(items)), ConservativeMargin(profitMargin));
  }

  lemma PricedMargin(s: Subtotals, margin: real)
    requires margin >= 10.0
    ensures s.Total() >= 0.0 ==> Priced(s, margin).profitAmount >= Priced(s, margin).totalCost / 10.0
  {
    if s.Total() >= 0.0 {
      Scale(s.Total(), 0.1, margin / 100.0);
    }
  }

  lemma Scale(c: real, lo: real, hi: real)
    requires c >= 0.0 && lo <= hi
    ensures c * lo <= c * hi
  {
  }

  /** Because of the floor, a low margin can make the conservative quote dearer
      than the standard one: a single fixed item of 100 at margin 0. */
  lemma FloorCanRaiseConservativePrice(item: CostItem)
    requires item == CostItem("x", "x", None, Material, Fixed, Some(100.0), None, None, None)
    ensures Quote([item], 0.0).totalPrice == 100.0
    ensures Quote(ConservativeItems([item]), ConservativeMargin(0.0)).totalPrice == 110.0
  {
    assert Trimmed(item) == item;
    assert ConservativeItems([item]) == [item];
    assert ConservativeMargin(0.0) == 10.0;
    assert Contribution(item) == Subtotals(0.0, 100.0, 0.0, 0.0);
    QuoteSingle(item, 0.0);
    QuoteSingle(item, 10.0);
  }

  // ---------------------------------------------------------------------------
  // Effect of the rescaling on the quote

  predicate SameOtherBuckets(s: Subtotals, t: Subtotals)
  {
    s.materials == t.materials && s.software == t.software && s.overhead == t.overhead
  }

  /** Two equal-length scopes whose items agree pointwise outside the labor
      bucket agree outside the labor bucket. */
  lemma {:induction false} PointwiseOtherBuckets(a: seq<CostItem>, b: seq<CostItem>)
    requires |a| == |b|
    requires forall i :: 0 <= i < |a| ==> SameOtherBuckets(Contribution(a[i]), Contribution(b[i]))
    ensures SameOtherBuckets(Tally(a), Tally(b))
  {
    if a != [] {
      var n := |a| - 1;
      PointwiseOtherBuckets(a[..n], b[..n]);
      assert SameOtherBuckets(Contribution(a[n]), Contribution(b[n]));
    }
  }

  /** Two equal-length scopes whose items compare pointwise in total cost compare
      in total cost. */
  lemma {:induction false} PointwiseTotal(a: seq<CostItem>, b: seq<CostItem>)
    requires |a| == |b|
    requires forall i :: 0 <= i < |a| ==> Contribution(a[i]).Total() <= Contribution(b[i]).Total()
    ensures Tally(a).Total() <= Tally(b).Total()
  {
    if a != [] {
      var n := |a| - 1;
      PointwiseTotal(a[..n], b[..n]);
      assert Contribution(a[n]).Total() <= Contribution(b[n]).Total();
    }
  }

  /** Rescaling hours keeps an item in its bucket and keeps it counted or skipped. */
  lemma RescaledItemStaysPut(x: CostItem)
    ensures SameOtherBuckets(Contribution(Trimmed(x)), Contribution(x))
    ensures SameOtherBuckets(Contribution(Buffered(x)), Contribution(x))
  {
    if !IsLaborHourly(x) {
      assert Trimmed(x) == x && Buffered(x) == x;
    }
  }

  /** The conservative and premium scopes keep the standard material, software
      and overhead subtotals, whatever the margins. */
  lemma VariantsKeepOtherBuckets(items: seq<CostItem>, profitMargin: real)
    ensures var s, c := Quote(items, profitMargin), Quote(ConservativeItems(items), ConservativeMargin(profitMargin));
      c.subtotalMaterials == s.subtotalMaterials && c.subtotalSoftware == s.subtotalSoftware
      && c.subtotalOverhead == s.subtotalOverhead
    ensures var s, p := Quote(items, profitMargin), Quote(PremiumItems(items, profitMargin), PremiumMargin(profitMargin));
      p.subtotalMaterials == s.subtotalMaterials && p.subtotalSoftware == s.subtotalSoftware
      && p.subtotalOverhead == s.subtotalOverhead
  {
    var c, b := ConservativeItems(items), BufferedItems(items);
    forall i | 0 <= i < |items|
      ensures SameOtherBuckets(Contribution(c[i]), Contribution(items[i]))
      ensures SameOtherBuckets(Contribution(b[i]), Contribution(items[i]))
    {
      RescaledItemStaysPut(items[i]);
    }
    PointwiseOtherBuckets(c, items);
    PointwiseOtherBuckets(b, items);
    var support := SupportItem(Quote(items, profitMargin).totalPrice);
    SumOfAppend(b, [support], Contribution);
    SumOfSingle(support, Contribution);
  }

  /** Every hour count that a labor/hourly item carries is absent, zero, or at least one. */
  predicate WholeHours(item: CostItem)
  {
    IsLaborHourly(item) && item.quantity.Some? && item.quantity.value != 0.0 ==> item.quantity.value >= 1.0
  }

  /** Trimmed hours never exceed the hours the calculator would have read. */
  lemma ShrinkBelow(quantity: Option<real>)
    requires quantity.Some? && quantity.value != 0.0 ==> quantity.value >= 1.0
    ensures Shrink(QuantityOrZero(quantity)) <= QuantityOrOne(quantity)
  {
    if quantity.Some? && quantity.value != 0.0 {
      assert QuantityOrOne(quantity) == quantity.value;
    } else {
      assert QuantityOrZero(quantity) == 0.0 && QuantityOrOne(quantity) == 1.0;
    }
  }

  /** Trimming whole hours never raises a labor/hourly item's cost. */
  lemma ShrinkCost(x: CostItem)
    requires IsLaborHourly(x) && NonNegativeItem(x) && WholeHours(x)
    ensures Cost(Trimmed(x)) <= Cost(x)
  {
    var q, r := QuantityOrZero(x.quantity), RateOrZero(x.rate);
    var y := Trimmed(x);
    assert y.quantity == Some(Shrink(q));
    assert QuantityOrOne(y.quantity) == Shrink(q);
    ShrinkBelow(x.quantity);
    FewerHoursCostLess(x, y);
  }

  /** Changing only the hours of a metred item with a non-negative rate moves
      its cost the same way as the hours the calculator reads. */
  lemma FewerHoursCostLess(x: CostItem, y: CostItem)
    requires x.pricing == Hourly && y == x.(quantity := y.quantity) && RateOrZero(x.rate) >= 0.0
    requires QuantityOrOne(y.quantity) <= QuantityOrOne(x.quantity)
    ensures Cost(y) <= Cost(x)
  {
    Scale(RateOrZero(x.rate), QuantityOrOne(y.quantity), QuantityOrOne(x.quantity));
  }

  lemma ShrinkNoDearer(x: CostItem)
    requires NonNegativeItem(x) && WholeHours(x)
    ensures Contribution(Trimmed(x)).Total() <= Contribution(x).Total()
  {
    var y := Trimmed(x);
    if IsLaborHourly(x) {
      ShrinkCost(x);
    } else {
      assert y == x;
    }
    assert Counted(y) == Counted(x);
    ContributionTotal(x);
    ContributionTotal(y);
  }

  /** Buffered hours are never fewer than the hours the calculator would have read. */
  lemma StretchAbove(quantity: Option<real>)
    requires quantity.Some? ==> quantity.value >= 0.0
    ensures QuantityOrOne(quantity) <= QuantityOrOne(Some(Stretch(QuantityOrZero(quantity))))
  {
    if quantity.Some? && quantity.value != 0.0 {
      assert QuantityOrOne(Some(Stretch(QuantityOrZero(quantity)))) == quantity.value * 1.2;
    } else {
      assert Stretch(QuantityOrZero(quantity)) == 0.0;
    }
  }

  /** Buffering never lowers a labor/hourly item's cost; an absent or zero
      quantity still reads as one hour. */
  lemma StretchCost(x: CostItem)
    requires IsLaborHourly(x) && NonNegativeItem(x)
    ensures Cost(Buffered(x)) >= Cost(x)
  {
    var y := Buffered(x);
    StretchAbove(x.quantity);
    assert x == y.(quantity := x.quantity);
    FewerHoursCostLess(y, x);
  }

  lemma StretchNoCheaper(x: CostItem)
    requires NonNegativeItem(x)
    ensures Contribution(Buffered(x)).Total() >= Contribution(x).Total()
  {
    var y := Buffered(x);
    if IsLaborHourly(x) {
      StretchCost(x);
    } else {
      assert y == x;
    }
    assert Counted(y) == Counted(x);
    ContributionTotal(x);
    ContributionTotal(y);
  }

  /** With non-negative rates and quantities and whole labor hours, the
      conservative scope never costs more than the standard one; at a margin of
      15 or more it is never priced higher either. */
  lemma ConservativeNoDearer(items: seq<CostItem>, profitMargin: real)
    requires forall i :: 0 <= i < |items| ==> NonNegativeItem(items[i]) && WholeHours(items[i])
    ensures var s, c := Quote(items, profitMargin), Quote(ConservativeItems(items), ConservativeMargin(profitMargin));
      && c.totalCost <= s.totalCost
      && (profitMargin >= 15.0 ==> c.totalPrice <= s.totalPrice)
  {
    var c := ConservativeItems(items);
    TrimmedScopeNoDearer(items);
    if profitMargin >= 15.0 {
      PricedMonotone(Tally(c), Tally(items), ConservativeMargin(profitMargin), profitMargin);
    }
  }

  lemma TrimmedScopeNoDearer(items: seq<CostItem>)
    requires forall i :: 0 <= i < |items| ==> NonNegativeItem(items[i]) && WholeHours(items[i])
    ensures 0.0 <= Tally(ConservativeItems(items)).Total() <= Tally(items).Total()
  {
    var c := ConservativeItems(items);
    forall i | 0 <= i < |c|
      ensures Contribution(c[i]).Total() <= Contribution(items[i]).Total()
      ensures NonNegativeItem(c[i])
    {
      assert c[i] == Trimmed(items[i]);
      ShrinkNoDearer(items[i]);
      if IsLaborHourly(items[i]) {
        assert c[i].quantity.value >= 1.0;
      }
    }
    PointwiseTotal(c, items);
    NonNegativeQuote(c, 0.0);
  }

  /** A larger cost at a larger (non-negative) margin gives a larger price. */
  lemma PriceMonotone(c1: real, c2: real, m1: real, m2: real)
    requires 0.0 <= c1 <= c2 && 0.0 <= m1 <= m2
    ensures c1 + c1 * (m1 / 100.0) <= c2 + c2 * (m2 / 100.0)
  {
    Scale(c1, m1 / 100.0, m2 / 100.0);
    Scale(m2 / 100.0, c1, c2);
    assert c1 * (m2 / 100.0) == (m2 / 100.0) * c1;
    assert c2 * (m2 / 100.0) == (m2 / 100.0) * c2;
  }

  /** Priced accumulators are monotone in cost and in (non-negative) margin. */
  lemma PricedMonotone(s1: Subtotals, s2: Subtotals, m1: real, m2: real)
    requires 0.0 <= s1.Total() <= s2.Total() && 0.0 <= m1 <= m2
    ensures Priced(s1, m1).totalPrice <= Priced(s2, m2).totalPrice
  {
    PriceMonotone(s1.Total(), s2.Total(), m1, m2);
  }

  /** The support item adds 15% of the price it was made from to the cost. */
  lemma SupportCost(front: seq<CostItem>, standardPrice: real)
    ensures Tally(front + [SupportItem(standardPrice)]).Total() == Tally(front).Total() + 0.15 * standardPrice
  {
    var support := SupportItem(standardPrice);
    assert Contribution(support) == Subtotals(standardPrice * 0.15, 0.0, 0.0, 0.0);
    TallyPush(front, support);
  }

  lemma PremiumCost(items: seq<CostItem>, profitMargin: real)
    ensures Tally(PremiumItems(items, profitMargin)).Total()
      == Tally(BufferedItems(items)).Total() + 0.15 * Quote(items, profitMargin).totalPrice
  {
    SupportCost(BufferedItems(items), Quote(items, profitMargin).totalPrice);
  }

  /** The premium total cost is the buffered scope's cost plus the support item,
      priced from the standard total price (so it does not include itself); with
      non-negative inputs and margin, premium is never priced below standard. */
  lemma PremiumPricing(items: seq<CostItem>, profitMargin: real)
    ensures var s, p := Quote(items, profitMargin), Quote(PremiumItems(items, profitMargin), PremiumMargin(profitMargin));
      p.totalCost == Tally(BufferedItems(items)).Total() + 0.15 * s.totalPrice
    ensures var s, p := Quote(items, profitMargin), Quote(PremiumItems(items, profitMargin), PremiumMargin(profitMargin));
      ((forall i :: 0 <= i < |items| ==> NonNegativeItem(items[i])) && profitMargin >= 0.0)
        ==> p.totalPrice >= s.totalPrice
  {
    PremiumCost(items, profitMargin);
    if (forall i :: 0 <= i < |items| ==> NonNegativeItem(items[i])) && profitMargin >= 0.0 {
      PremiumNoCheaper(items, profitMargin);
    }
  }

  lemma PremiumNoCheaper(items: seq<CostItem>, profitMargin: real)
    requires forall i :: 0 <= i < |items| ==> NonNegativeItem(items[i])
    requires profitMargin >= 0.0
    ensures Quote(PremiumItems(items, profitMargin), PremiumMargin(profitMargin)).totalPrice
         >= Quote(items, profitMargin).totalPrice
  {
    var standard, premium := Tally(items), Tally(PremiumItems(items, profitMargin));
    PremiumCost(items, profitMargin);
    BufferedScopeNoCheaper(items);
    NonNegativeQuote(items, profitMargin);
    assert 0.0 <= standard.Total() <= premium.Total();
    PricedMonotone(standard, premium, profitMargin, PremiumMargin(profitMargin));
  }

  lemma BufferedScopeNoCheaper(items: seq<CostItem>)
    requires forall i :: 0 <= i < |items| ==> NonNegativeItem(items[i])
    ensures Tally(items).Total() <= Tally(BufferedItems(items)).Total()
  {
    var b := BufferedItems(items);
    forall i | 0 <= i < |b|
      ensures Contribution(items[i]).Total() <= Contribution(b[i]).Total()
    {
      assert b[i] == Buffered(items[i]);
      StretchNoCheaper(items[i]);
    }
    PointwiseTotal(items, b);
  }

  /** The documented example: one labor/hourly item of 40 hours at 10000 with a
      margin of 20 is quoted at 368000, 480000 and 690000. */
  lemma WorkedExample(item: CostItem)
    requires item == CostItem("dev", "Development", None, Labor, Hourly, Some(10000.0), Some(40.0), None, None)
    ensures Quote(ConservativeItems([item]), ConservativeMargin(20.0)).totalPrice == 368000.0
    ensures Quote([item], 20.0).totalPrice == 480000.0
    ensures Quote(PremiumItems([item], 20.0), PremiumMargin(20.0)).totalPrice == 690000.0
  {
    // Conservative: 32 hours at a 15% margin.
    var trimmed := item.(quantity := Some(32.0));
    assert Trimmed(item) == trimmed;
    assert ConservativeItems([item]) == [trimmed];
    assert Contribution(trimmed) == Subtotals(320000.0, 0.0, 0.0, 0.0);
    QuoteSingle(trimmed, 15.0);
    // Standard: 40 hours at 20%.
    assert Contribution(item) == Subtotals(400000.0, 0.0, 0.0, 0.0);
    QuoteSingle(item, 20.0);
    // Premium: 48 hours plus 15% of 480000 for support, at 25%.
    var buffered := item.(quantity := Some(48.0));
    assert Buffered(item) == buffered;
    assert BufferedItems([item]) == [buffered];
    assert Contribution(buffered) == Subtotals(480000.0, 0.0, 0.0, 0.0);
    SumOfSingle(buffered, Contribution);
    SupportCost([buffered], 480000.0);
  }
}
