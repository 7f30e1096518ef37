/** The state held by the provider in src/context/GigScopeContext.tsx: the
    selected industry, the scope list and its details, the settings and the
    active variant, with the actions that replace them and the figures derived
    from them on every render. */
module GigScopeContext {
  import opened Wrappers
  import opened CostEngine
  import opened QuoteVariants
  import opened MarketIntelligence

  /** An industry template; its icon component is not modelled. */
  datatype Industry = Industry(id: string, name: string, description: string, defaultItems: seq<CostItem>)

  datatype GlobalSettings = GlobalSettings(currency: string, profitMargin: real, taxRate: real)

  /** `Partial<CostItem>`: a field is either absent from the update or present.
      A present optional field may carry `undefined`, hence `Option<Option<_>>`. */
  datatype ItemPatch = ItemPatch(
    id: Option<string>,
    name: Option<string>,
    description: Option<Option<string>>,
    category: Option<Category>,
    pricing: Option<PricingType>,
    rate: Option<Option<real>>,
    quantity: Option<Option<real>>,
    isOptional: Option<Option<bool>>,
    isSelected: Option<Option<bool>>)

  const NoChange := ItemPatch(None, None, None, None, None, None, None, None, None)

  // ---------------------------------------------------------------------------
  // The list transforms behind the actions

  /** `{ ...item, ...updates }`: every field present in the update wins. */
  function ApplyPatch(item: CostItem, u: ItemPatch): CostItem
  {
    CostItem(
      u.id.GetOr(item.id),
      u.name.GetOr(item.name),
      u.description.GetOr(item.description),
      u.category.GetOr(item.category),
      u.pricing.GetOr(item.pricing),
      u.rate.GetOr(item.rate),
      u.quantity.GetOr(item.quantity),
      u.isOptional.GetOr(item.isOptional),
      u.isSelected.GetOr(item.isSelected))
  }

  /** Holds when some item of `items` has id `id`. */
  predicate HasId(items: seq<CostItem>, id: string)
  {
    exists i :: 0 <= i < |items| && items[i].id == id
  }

  /** `prev.filter(i => i.id !== id)`. */
  function RemoveById(items: seq<CostItem>, id: string): (r: seq<CostItem>)
    ensures |r| <= |items|
    ensures forall x :: x in r <==> x in items && x.id != id
  {
    if items == [] then []
    else (if items[0].id != id then [items[0]] else []) + RemoveById(items[1..], id)
  }

  /** `prev.map(item => item.id === id ? { ...item, ...updates } : item)`. */
  function UpdateById(items: seq<CostItem>, id: string, u: ItemPatch): (r: seq<CostItem>)
    ensures |r| == |items|
  {
    seq(|items|, i requires 0 <= i < |items| => if items[i].id == id then ApplyPatch(items[i], u) else items[i])
  }

  // ---------------------------------------------------------------------------
  // Properties of the transforms

  /** Applying the same update twice is applying it once; the empty update
      changes nothing. */
  lemma PatchLaws(item: CostItem, u: ItemPatch)
    ensures ApplyPatch(ApplyPatch(item, u), u) == ApplyPatch(item, u)
    ensures ApplyPatch(item, NoChange) == item
  {
  }

  /** Removing is a filter: it distributes over concatenation. */
  lemma {:induction false} RemoveAppend(a: seq<CostItem>, b: seq<CostItem>, id: string)
    ensures RemoveById(a + b, id) == RemoveById(a, id) + RemoveById(b, id)
  {
    if a == [] {
      assert a + b == b;
    } else {
      assert (a + b)[1..] == a[1..] + b;
      RemoveAppend(a[1..], b, id);
    }
  }

  /** Removing an id nobody has changes nothing; afterwards nobody has it. */
  lemma {:induction false} RemoveAbsent(items: seq<CostItem>, id: string)
    ensures !HasId(items, id) ==> RemoveById(items, id) == items
    ensures !HasId(RemoveById(items, id), id)
  {
    if items != [] {
      RemoveAbsent(items[1..], id);
      if !HasId(items, id) {
        assert !HasId(items[1..], id) by {
          forall i | 0 <= i < |items[1..]| ensures items[1..][i].id != id {
            assert items[1..][i] == items[i + 1];
          }
        }
        assert items == [items[0]] + items[1..];
      }
    }
    var r := RemoveById(items, id);
    forall i | 0 <= i < |r| ensures r[i].id != id {
      assert r[i] in r;
    }
  }

  /** Removing the same id twice is removing it once. */
  lemma RemoveIdempotent(items: seq<CostItem>, id: string)
    ensures RemoveById(RemoveById(items, id), id) == RemoveById(items, id)
  {
    RemoveAbsent(items, id);
    RemoveAbsent(RemoveById(items, id), id);
  }

  /** Appending an item whose id is new and then removing that id gives back the
      list as it was. */
  lemma AddThenRemove(items: seq<CostItem>, x: CostItem)
    requires !HasId(items, x.id)
    ensures RemoveById(items + [x], x.id) == items
  {
    RemoveAppend(items, [x], x.id);
    RemoveAbsent(items, x.id);
    assert RemoveById([x], x.id) == [] by {
      assert [x][1..] == [];
    }
    assert items + [] == items;
  }

  /** Items with another id are untouched and keep their place; matching items
      take exactly the fields present in the update. */
  lemma UpdatePointwise(items: seq<CostItem>, id: string, u: ItemPatch)
    ensures var r := UpdateById(items, id, u);
      forall i :: 0 <= i < |items| ==>
        (items[i].id != id ==> r[i] == items[i]) &&
        (items[i].id == id ==> r[i] == ApplyPatch(items[i], u))
  {
  }

  /** An update that keeps the id is idempotent, and an update for an id nobody
      has, or the empty update, changes nothing. */
  lemma UpdateLaws(items: seq<CostItem>, id: string, u: ItemPatch)
    ensures u.id.None? || u.id == Some(id) ==> UpdateById(UpdateById(items, id, u), id, u) == UpdateById(items, id, u)
    ensures !HasId(items, id) ==> UpdateById(items, id, u) == items
    ensures UpdateById(items, id, NoChange) == items
  {
    var once := UpdateById(items, id, u);
    if u.id.None? || u.id == Some(id) {
      forall i | 0 <= i < |items|
        ensures UpdateById(once, id, u)[i] == once[i]
      {
        PatchLaws(items[i], u);
      }
    }
    forall i | 0 <= i < |items| ensures UpdateById(items, id, NoChange)[i] == items[i] {
      PatchLaws(items[i], u);
    }
  }

  /** Removing an id after updating it (without changing the id) is the same as
      removing it straight away. */
  lemma {:induction false} UpdateThenRemove(items: seq<CostItem>, id: string, u: ItemPatch)
    requires u.id.None? || u.id == Some(id)
    ensures RemoveById(UpdateById(items, id, u), id) == RemoveById(items, id)
  {
    if items != [] {
      var r := UpdateById(items, id, u);
      assert r[1..] == UpdateById(items[1..], id, u);
      UpdateThenRemove(items[1..], id, u);
      assert r[0].id == id <==> items[0].id == id;
      assert items[0].id != id ==> r[0] == items[0];
    }
  }

  // ---------------------------------------------------------------------------
  // The provider

  /** The id the market lookup uses: the selected industry's, or web-dev when
      nothing is selected or the id is empty. */
  function MarketKey(selected: Option<Industry>): (key: string)
    ensures key != ""
    ensures selected.Some? && selected.value.id != "" ==> key == selected.value.id
    ensures !(selected.Some? && selected.value.id != "") ==> key == "web-dev"
  {
    if selected.Some? && selected.value.id != "" then selected.value.id else "web-dev"
  }

  class GigScopeStore {
    var selectedIndustry: Option<Industry>
    var scopeItems: seq<CostItem>
    var scopeDetails: ScopeDetails
    var settings: GlobalSettings
    var activeVariantId: Tier

    /** The initial state: nothing selected, an empty scope and details, a 20%
        margin in NGN with no tax, and the standard variant active. */
    constructor()
      ensures selectedIndustry == None && scopeItems == []
      ensures scopeDetails == ScopeDetails("", [], [])
      ensures settings == GlobalSettings("NGN", 20.0, 0.0)
      ensures activeVariantId == Standard
    {
      selectedIndustry := None;
      scopeItems := [];
      scopeDetails := ScopeDetails("", [], []);
      settings := GlobalSettings("NGN", 20.0, 0.0);
      activeVariantId := Standard;
    }

    /** `setSelectedIndustry` followed by the load effect: a newly selected
        industry replaces the scope with a copy of its default items; clearing
        the selection, or selecting the same industry again, keeps the scope. */
    method SetSelectedIndustry(industry: Option<Industry>)
      modifies this
      ensures selectedIndustry == industry
      ensures scopeItems == if industry.Some? && industry != old(selectedIndustry)
                            then industry.value.defaultItems else old(scopeItems)
      ensures scopeDetails == old(scopeDetails) && settings == old(settings)
      ensures activeVariantId == old(activeVariantId)
    {
      var changed := industry != selectedIndustry;
      selectedIndustry := industry;
      if changed && industry.Some? {
        scopeItems := industry.value.defaultItems;
      }
    }

    /** `setScopeItems`. */
    method SetScopeItems(items: seq<CostItem>)
      modifies this
      ensures scopeItems == items
      ensures selectedIndustry == old(selectedIndustry) && scopeDetails == old(scopeDetails)
      ensures settings == old(settings) && activeVariantId == old(activeVariantId)
    {
      scopeItems := items;
    }

    /** `addScopeItem`: the item goes at the end. */
    method AddScopeItem(item: CostItem)
      modifies this
      ensures scopeItems == old(scopeItems) + [item]
      ensures selectedIndustry == old(selectedIndustry) && scopeDetails == old(scopeDetails)
      ensures settings == old(settings) && activeVariantId == old(activeVariantId)
    {
      scopeItems := scopeItems + [item];
    }

    /** `removeScopeItem`. */
    method RemoveScopeItem(id: string)
      modifies this
      ensures scopeItems == RemoveById(old(scopeItems), id)
      ensures selectedIndustry == old(selectedIndustry) && scopeDetails == old(scopeDetails)
      ensures settings == old(settings) && activeVariantId == old(activeVariantId)
    {
      scopeItems := RemoveById(scopeItems, id);
    }

    /** `updateScopeItem`. */
    method UpdateScopeItem(id: string, updates: ItemPatch)
      modifies this
      ensures scopeItems == UpdateById(old(scopeItems), id, updates)
      ensures selectedIndustry == old(selectedIndustry) && scopeDetails == old(scopeDetails)
      ensures settings == old(settings) && activeVariantId == old(activeVariantId)
    {
      scopeItems := UpdateById(scopeItems, id, updates);
    }

    /** `setScopeDetails`. */
    method SetScopeDetails(details: ScopeDetails)
      modifies this
      ensures scopeDetails == details
      ensures selectedIndustry == old(selectedIndustry) && scopeItems == old(scopeItems)
      ensures settings == old(settings) && activeVariantId == old(activeVariantId)
    {
      scopeDetails := details;
    }

    /** `setSettings`. */
    method SetSettings(s: GlobalSettings)
      modifies this
      ensures settings == s
      ensures selectedIndustry == old(selectedIndustry) && scopeItems == old(scopeItems)
      ensures scopeDetails == old(scopeDetails) && activeVariantId == old(activeVariantId)
    {
      settings := s;
    }

    /** `setActiveVariantId`. */
    method SetActiveVariantId(tier: Tier)
      modifies this
      ensures activeVariantId == tier
      ensures selectedIndustry == old(selectedIndustry) && scopeItems == old(scopeItems)
      ensures scopeDetails == old(scopeDetails) && settings == old(settings)
    {
      activeVariantId := tier;
    }

    /** The figures recomputed on every render, all from the same state: the
        quote, the market record, the confidence score, the risks and the three
        variants, whose standard one carries the very same quote. */
    method Derive() returns (calculations: QuoteCalculations, marketData: MarketData,
                             confidence: Confidence, risks: seq<RiskIndicator>, variants: seq<QuoteVariant>)
      ensures calculations == Quote(scopeItems, settings.profitMargin)
      ensures marketData == GetMarketData(MarketKey(selectedIndustry))
      ensures confidence == ConfidenceOf(scopeItems, marketData)
      ensures 0 <= confidence.score <= 100
      ensures risks == Risks(scopeDetails, scopeItems)
      ensures variants == Variants(scopeItems, settings.profitMargin)
      ensures |variants| == 3 && variants[1].items == scopeItems && variants[1].calculations == calculations
    {
      calculations := CalculateQuote(scopeItems, settings.profitMargin);
      marketData := GetMarketData(MarketKey(selectedIndustry));
      confidence := CalculateConfidenceScore(scopeItems, marketData);
      ScoreInRange(scopeItems, marketData);
      risks := AnalyzeRisk(scopeDetails, scopeItems);
      variants := GenerateVariants(scopeItems, settings.profitMargin);
      VariantsShape(scopeItems, settings.profitMargin);
    }
  }

  /** In the initial state the scope has no timeline and no assumptions, so
      exactly those two risks are shown, in that order. */
  lemma InitialRisks(details: ScopeDetails, items: seq<CostItem>)
    requires details == ScopeDetails("", [], []) && items == []
    ensures Risks(details, items) == [NoTimelineRisk, NoAssumptionsRisk]
  {
  }

  /** In the initial state, with nothing to benchmark, the confidence score is
      100 against the web-dev record the empty selection falls back to. */
  lemma InitialConfidence(items: seq<CostItem>, market: MarketData)
    requires items == [] && market == GetMarketData(MarketKey(None))
    ensures market == GetMarketData("web-dev")
    ensures ConfidenceOf(items, market) == Confidence(100, High, NoLaborText)
  {
    assert BenchmarkItems(items) == [];
  }
}
