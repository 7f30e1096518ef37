/** The quote calculator of src/data/costEngine.ts: a scope of cost items and a
    profit margin become four category subtotals, a total cost, a profit amount
    and a total price. Money is an exact `real`. */
module CostEngine {
  import opened Wrappers

  /** The closed category enumeration, plus `UnknownCategory` for any other
      string an item may carry at run time (legacy data): such an item reaches
      the calculator's default arm. */
  datatype Category = Labor | Material | Software | Overhead | FixedCategory | UnknownCategory

  /** The pricing type of an item, plus `UnknownType` for any other string,
      which no arm of the cost switch matches. */
  datatype PricingType = Hourly | Fixed | Unit | Subscription | UnknownType

  /** One priced line. Every field the source marks optional is an `Option`. */
  datatype CostItem = CostItem(
    id: string,
    name: string,
    description: Option<string>,
    category: Category,
    pricing: PricingType,
    rate: Option<real>,
    quantity: Option<real>,
    isOptional: Option<bool>,
    isSelected: Option<bool>)

  /** The seven numbers the calculator returns. */
  datatype QuoteCalculations = QuoteCalculations(
    subtotalLabor: real,
    subtotalMaterials: real,
    subtotalSoftware: real,
    subtotalOverhead: real,
    totalCost: real,
    profitAmount: real,
    totalPrice: real)

  /** The four accumulators of the calculator's loop. */
  datatype Subtotals = Subtotals(labor: real, materials: real, software: real, overhead: real)
  {
    function Plus(other: Subtotals): Subtotals
    {
      Subtotals(labor + other.labor, materials + other.materials,
                software + other.software, overhead + other.overhead)
    }

    function Total(): real
    {
      labor + materials + software + overhead
    }
  }

  const NoCost := Subtotals(0.0, 0.0, 0.0, 0.0)

  // ---------------------------------------------------------------------------
  // Reading item fields the way JavaScript's `||` and truthiness do

  /** An optional boolean is truthy only when it is present and true. */
  predicate Truthy(b: Option<bool>)
  {
    b.Some? && b.value
  }

  /** `item.quantity || 1`: an absent quantity and a zero quantity both read as 1. */
  function QuantityOrOne(q: Option<real>): real
  {
    if q.Some? && q.value != 0.0 then q.value else 1.0
  }

  /** `item.rate || 0`: an absent rate reads as 0. */
  function RateOrZero(r: Option<real>): real
  {
    r.GetOr(0.0)
  }

  /** An item takes part in the totals unless it is optional and not selected. */
  predicate Counted(item: CostItem)
  {
    !(Truthy(item.isOptional) && !Truthy(item.isSelected))
  }

  /** The per-item cost: rate times quantity, except a fixed item costs its rate. */
  function Cost(item: CostItem): real
  {
    match item.pricing
    case Hourly | Unit | Subscription => RateOrZero(item.rate) * QuantityOrOne(item.quantity)
    case Fixed => RateOrZero(item.rate)
    case UnknownType => 0.0
  }

  /** `cost` placed in the bucket of `category`; the fixed category and any
      unknown one fall back to the labor bucket. */
  function Bucket(category: Category, cost: real): Subtotals
  {
    match category
    case Labor => Subtotals(cost, 0.0, 0.0, 0.0)
    case Material => Subtotals(0.0, cost, 0.0, 0.0)
    case Software => Subtotals(0.0, 0.0, cost, 0.0)
    case Overhead => Subtotals(0.0, 0.0, 0.0, cost)
    case FixedCategory | UnknownCategory => Subtotals(cost, 0.0, 0.0, 0.0)
  }

  /** What one item adds to the four accumulators: nothing when it is skipped. */
  function Contribution(item: CostItem): Subtotals
  {
    Bucket(item.category, if Counted(item) then Cost(item) else 0.0)
  }

  /** The accumulators after adding `part` of every item, first to last. */
  function SumOf(items: seq<CostItem>, part: CostItem -> Subtotals): Subtotals
  {
    if items == [] then NoCost
    else SumOf(items[..|items| - 1], part).Plus(part(items[|items| - 1]))
  }

  /** The accumulators after the calculator's loop has visited `items`. */
  function Tally(items: seq<CostItem>): Subtotals
  {
    SumOf(items, Contribution)
  }

  /** The result record built from final accumulators and a margin percentage. */
  function Priced(s: Subtotals, profitMarginPercent: real): QuoteCalculations
  {
    var totalCost := s.Total();
    var profitAmount := totalCost * (profitMarginPercent / 100.0);
    QuoteCalculations(s.labor, s.materials, s.software, s.overhead,
                      totalCost, profitAmount, totalCost + profitAmount)
  }

  /** The specification of `calculateQuote`. */
  function Quote(items: seq<CostItem>, profitMarginPercent: real): QuoteCalculations
  {
    Priced(Tally(items), profitMarginPercent)
  }

  // ---------------------------------------------------------------------------
  // The calculator

  /** Walks the items once, handing each to the per-item callback. */
  method CalculateQuote(items: seq<CostItem>, profitMarginPercent: real) returns (q: QuoteCalculations)
    ensures q == Quote(items, profitMarginPercent)
    ensures q.totalCost == q.subtotalLabor + q.subtotalMaterials + q.subtotalSoftware + q.subtotalOverhead
    ensures q.profitAmount == q.totalCost * (profitMarginPercent / 100.0)
    ensures q.totalPrice == q.totalCost + q.profitAmount
  {
    var subtotalLabor, subtotalMaterials, subtotalSoftware, subtotalOverhead := 0.0, 0.0, 0.0, 0.0;
    for i := 0 to |items|
      invariant Subtotals(subtotalLabor, subtotalMaterials, subtotalSoftware, subtotalOverhead) == Tally(items[..i])
    {
      TallyStep(items, i);
      subtotalLabor, subtotalMaterials, subtotalSoftware, subtotalOverhead :=
        AddItem(items[i], subtotalLabor, subtotalMaterials, subtotalSoftware, subtotalOverhead);
    }
    assert items[..|items|] == items;
    var totalCost := subtotalLabor + subtotalMaterials + subtotalSoftware + subtotalOverhead;
    var profitAmount := totalCost * (profitMarginPercent / 100.0);
    var totalPrice := totalCost + profitAmount;
    q := QuoteCalculations(subtotalLabor, subtotalMaterials, subtotalSoftware, subtotalOverhead,
                           totalCost, profitAmount, totalPrice);
  }

  /** The `forEach` callback: skips an optional item that is not selected,
      prices the item by its pricing type and adds the cost to its category's
      accumulator, labor for any other category. */
  method AddItem(item: CostItem, labor: real, materials: real, software: real, overhead: real)
    returns (labor': real, materials': real, software': real, overhead': real)
    ensures Subtotals(labor', materials', software', overhead')
         == Subtotals(labor, materials, software, overhead).Plus(Contribution(item))
  {
    labor', materials', software', overhead' := labor, materials, software, overhead;
    if Truthy(item.isOptional) && !Truthy(item.isSelected) {
      return;
    }
    var cost := 0.0;
    var qty := QuantityOrOne(item.quantity);
    var rate := RateOrZero(item.rate);
    match item.pricing {
      case Hourly | Unit | Subscription => cost := rate * qty;
      case Fixed => cost := rate;
      case UnknownType =>
    }
    assert cost == Cost(item);
    match item.category {
      case Labor => labor' := labor' + cost;
      case Material => materials' := materials' + cost;
      case Software => software' := software' + cost;
      case Overhead => overhead' := overhead' + cost;
      case FixedCategory | UnknownCategory => labor' := labor' + cost;
    }
  }

  /** Whatever its bucket, an item adds its cost to the total once, or nothing when skipped. */
  lemma ContributionTotal(item: CostItem)
    ensures Contribution(item).Total() == if Counted(item) then Cost(item) else 0.0
  {
  }

  /** One more turn of the calculator's loop adds one item's contribution. */
  lemma TallyPush(items: seq<CostItem>, x: CostItem)
    ensures Tally(items + [x]) == Tally(items).Plus(Contribution(x))
    ensures Tally(items + [x]).Total() == Tally(items).Total() + Contribution(x).Total()
  {
    assert (items + [x])[..|items|] == items;
  }

  /** A one-item scope is priced from that item's contribution alone. */
  lemma QuoteSingle(x: CostItem, profitMarginPercent: real)
    ensures Quote([x], profitMarginPercent) == Priced(Contribution(x), profitMarginPercent)
  {
    SumOfSingle(x, Contribution);
  }

  lemma TallyStep(items: seq<CostItem>, i: nat)
    requires i < |items|
    ensures Tally(items[..i + 1]) == Tally(items[..i]).Plus(Contribution(items[i]))
  {
    assert items[..i + 1][..i] == items[..i];
  }

  // ---------------------------------------------------------------------------
  // Per-item rules

  /** A missing or zero quantity costs the same as a quantity of one. */
  lemma QuantityDefaultsToOne(item: CostItem)
    requires item.quantity == None || item.quantity == Some(0.0)
    ensures Cost(item) == Cost(item.(quantity := Some(1.0)))
    ensures item.pricing in {Hourly, Unit, Subscription} ==> Cost(item) == RateOrZero(item.rate)
  {
  }

  /** A missing rate costs the same as a rate of zero, so such an item costs nothing. */
  lemma RateDefaultsToZero(item: CostItem)
    requires item.rate == None
    ensures Cost(item) == Cost(item.(rate := Some(0.0))) == 0.0
  {
  }

  /** A fixed item costs exactly its rate, whatever its quantity. */
  lemma FixedIgnoresQuantity(item: CostItem, q: Option<real>)
    requires item.pricing == Fixed
    ensures Cost(item.(quantity := q)) == Cost(item) == RateOrZero(item.rate)
  {
  }

  /** A counted hourly, unit or subscription item with a non-zero quantity
      costs rate times quantity. */
  lemma MetredCost(item: CostItem)
    requires item.pricing in {Hourly, Unit, Subscription}
    requires item.quantity.Some? && item.quantity.value != 0.0
    ensures Cost(item) == RateOrZero(item.rate) * item.quantity.value
  {
  }

  /** A single item lands in exactly one subtotal: its own category's, or labor's
      for the fixed and unknown categories; an optional unselected one in none. */
  lemma {:induction false} SingleItemRouting(item: CostItem, profitMarginPercent: real)
    ensures var q := Quote([item], profitMarginPercent);
      var c := if Counted(item) then Cost(item) else 0.0;
      && q.subtotalLabor == (if item.category in {Labor, FixedCategory, UnknownCategory} then c else 0.0)
      && q.subtotalMaterials == (if item.category == Material then c else 0.0)
      && q.subtotalSoftware == (if item.category == Software then c else 0.0)
      && q.subtotalOverhead == (if item.category == Overhead then c else 0.0)
      && q.totalCost == c
  {
    SumOfSingle(item, Contribution);
  }

  // ---------------------------------------------------------------------------
  // Sums over a scope, for any per-item part

  lemma SumOfSingle(x: CostItem, part: CostItem -> Subtotals)
    ensures SumOf([x], part) == part(x)
  {
    assert [x][..0] == [];
  }

  /** Summing is additive over concatenation. */
  lemma {:induction false} SumOfAppend(a: seq<CostItem>, b: seq<CostItem>, part: CostItem -> Subtotals)
    ensures SumOf(a + b, part) == SumOf(a, part).Plus(SumOf(b, part))
    decreases |b|
  {
    if b == [] {
      assert a + b == a;
    } else {
      var b' := b[..|b| - 1];
      assert (a + b)[..|a + b| - 1] == a + b';
      assert (a + b)[|a + b| - 1] == b[|b| - 1];
      SumOfAppend(a, b', part);
    }
  }

  /** Summing does not depend on the order of the items. */
  lemma {:induction false} SumOfPermutation(a: seq<CostItem>, b: seq<CostItem>, part: CostItem -> Subtotals)
    requires multiset(a) == multiset(b)
    ensures SumOf(a, part) == SumOf(b, part)
    decreases |a|
  {
    if a == [] {
      assert |b| == |multiset(b)| == 0;
    } else {
      var x := a[|a| - 1];
      var a' := a[..|a| - 1];
      assert a == a' + [x];
      assert x in multiset(b);
      var j :| 0 <= j < |b| && b[j] == x;
      var front, back := b[..j], b[j + 1..];
      assert b == front + [x] + back;
      var rest := front + back;
      assert multiset(a') == multiset(a) - multiset{x};
      assert multiset(rest) == multiset(b) - multiset{x};
      SumOfPermutation(a', rest, part);
      SumOfInsert(front, x, back, part);
    }
  }

  /** Taking one item out of the middle of a scope removes exactly its part. */
  lemma SumOfInsert(front: seq<CostItem>, x: CostItem, back: seq<CostItem>, part: CostItem -> Subtotals)
    ensures SumOf(front + [x] + back, part) == SumOf(front + back, part).Plus(part(x))
  {
    var withX := front + [x];
    SumOfAppend(withX, back, part);
    SumOfAppend(front, [x], part);
    SumOfAppend(front, back, part);
    SumOfSingle(x, part);
    assert SumOf(withX, part) == SumOf(front, part).Plus(part(x));
    PlusSwap(SumOf(front, part), part(x), SumOf(back, part));
  }

  lemma PlusSwap(p: Subtotals, q: Subtotals, r: Subtotals)
    ensures p.Plus(q).Plus(r) == p.Plus(r).Plus(q)
  {
  }

  /** A sum of parts that are non-negative in every bucket is non-negative in every bucket. */
  lemma {:induction false} SumOfNonNegative(items: seq<CostItem>, part: CostItem -> Subtotals)
    requires forall i :: 0 <= i < |items| ==> NoNegativeBucket(part(items[i]))
    ensures NoNegativeBucket(SumOf(items, part))
  {
    if items != [] {
      SumOfNonNegative(items[..|items| - 1], part);
      assert NoNegativeBucket(part(items[|items| - 1]));
    }
  }

  predicate NoNegativeBucket(s: Subtotals)
  {
    s.labor >= 0.0 && s.materials >= 0.0 && s.software >= 0.0 && s.overhead >= 0.0
  }

  // ---------------------------------------------------------------------------
  // Whole-scope properties of the quote

  /** The empty scope gives zero in all seven fields, whatever the margin. */
  lemma EmptyScopeIsZero(profitMarginPercent: real)
    ensures Quote([], profitMarginPercent) == QuoteCalculations(0.0, 0.0, 0.0, 0.0, 0.0, 0.0, 0.0)
  {
    assert Tally([]) == NoCost;
  }

  /** The margin is not clamped: a zero margin prices at cost, a negative one
      below cost, and one above 100 more than doubles a positive cost. */
  lemma MarginIsUnclamped(items: seq<CostItem>, profitMarginPercent: real)
    ensures Quote(items, 0.0).totalPrice == Quote(items, 0.0).totalCost
    ensures var q := Quote(items, profitMarginPercent);
      q.totalCost > 0.0 ==> (profitMarginPercent < 0.0 <==> q.totalPrice < q.totalCost)
    ensures var q := Quote(items, profitMarginPercent);
      q.totalCost > 0.0 && profitMarginPercent > 100.0 ==> q.totalPrice > 2.0 * q.totalCost
  {
    var q := Quote(items, profitMarginPercent);
    var c := q.totalCost;
    assert q.totalPrice == c * (1.0 + profitMarginPercent / 100.0);
    if c > 0.0 && profitMarginPercent < 0.0 {
      assert c * (profitMarginPercent / 100.0) < 0.0;
    }
    if c > 0.0 && profitMarginPercent >= 0.0 {
      assert c * (profitMarginPercent / 100.0) >= 0.0;
    }
    if c > 0.0 && profitMarginPercent > 100.0 {
      assert c * (profitMarginPercent / 100.0) > c * 1.0;
    }
  }

  /** Each subtotal of a concatenated scope is the sum of the two scopes' subtotals. */
  lemma QuoteAppend(a: seq<CostItem>, b: seq<CostItem>, profitMarginPercent: real)
    ensures var q, qa, qb := Quote(a + b, profitMarginPercent), Quote(a, profitMarginPercent), Quote(b, profitMarginPercent);
      && q.subtotalLabor == qa.subtotalLabor + qb.subtotalLabor
      && q.subtotalMaterials == qa.subtotalMaterials + qb.subtotalMaterials
      && q.subtotalSoftware == qa.subtotalSoftware + qb.subtotalSoftware
      && q.subtotalOverhead == qa.subtotalOverhead + qb.subtotalOverhead
      && q.totalCost == qa.totalCost + qb.totalCost
  {
    SumOfAppend(a, b, Contribution);
  }

  /** The quote does not depend on the order of the items. */
  lemma QuoteIgnoresOrder(a: seq<CostItem>, b: seq<CostItem>, profitMarginPercent: real)
    requires multiset(a) == multiset(b)
    ensures Quote(a, profitMarginPercent) == Quote(b, profitMarginPercent)
  {
    SumOfPermutation(a, b, Contribution);
  }

  /** An optional item that is not selected changes nothing, wherever it is
      inserted into a scope or removed from it. */
  lemma SkippedItemChangesNothing(a: seq<CostItem>, item: CostItem, b: seq<CostItem>, profitMarginPercent: real)
    requires Truthy(item.isOptional) && !Truthy(item.isSelected)
    ensures Quote(a + [item] + b, profitMarginPercent) == Quote(a + b, profitMarginPercent)
  {
    SumOfInsert(a, item, b, Contribution);
    assert Contribution(item) == NoCost;
  }

  /** The inputs the user interface lets through: no negative rate or quantity. */
  predicate NonNegativeItem(item: CostItem)
  {
    (item.rate.Some? ==> item.rate.value >= 0.0) && (item.quantity.Some? ==> item.quantity.value >= 0.0)
  }

  lemma ContributionNonNegative(item: CostItem)
    requires NonNegativeItem(item)
    ensures NoNegativeBucket(Contribution(item))
  {
    ProductNonNegative(RateOrZero(item.rate), QuantityOrOne(item.quantity));
  }

  lemma ProductNonNegative(r: real, q: real)
    requires r >= 0.0 && q >= 0.0
    ensures r * q >= 0.0
  {
  }

  lemma PricedNonNegative(s: Subtotals, profitMarginPercent: real)
    requires NoNegativeBucket(s)
    ensures var q := Priced(s, profitMarginPercent);
      && 0.0 <= q.subtotalLabor <= q.totalCost
      && 0.0 <= q.subtotalMaterials <= q.totalCost
      && 0.0 <= q.subtotalSoftware <= q.totalCost
      && 0.0 <= q.subtotalOverhead <= q.totalCost
      && (profitMarginPercent >= 0.0 ==> q.totalPrice >= q.totalCost)
  {
    if profitMarginPercent >= 0.0 {
      ProductNonNegative(s.Total(), profitMarginPercent / 100.0);
    }
  }

  /** With non-negative rates and quantities every subtotal is non-negative and
      at most the total cost; a non-negative margin then never prices below cost. */
  lemma NonNegativeQuote(items: seq<CostItem>, profitMarginPercent: real)
    requires forall i :: 0 <= i < |items| ==> NonNegativeItem(items[i])
    ensures var q := Quote(items, profitMarginPercent);
      && 0.0 <= q.subtotalLabor <= q.totalCost
      && 0.0 <= q.subtotalMaterials <= q.totalCost
      && 0.0 <= q.subtotalSoftware <= q.totalCost
      && 0.0 <= q.subtotalOverhead <= q.totalCost
      && (profitMarginPercent >= 0.0 ==> q.totalPrice >= q.totalCost)
  {
    forall i | 0 <= i < |items|
      ensures NoNegativeBucket(Contribution(items[i]))
    {
      ContributionNonNegative(items[i]);
    }
    SumOfNonNegative(items, Contribution);
    PricedNonNegative(Tally(items), profitMarginPercent);
  }
}
