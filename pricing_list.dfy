/**
 * The admin catalogue listing (GET /api/v1/admin/pricing): the pricing map is
 * filtered by a search text and a provider, projected to list items, sorted
 * by (provider, model), and returned with its length and with the sorted
 * list of every provider in the map.
 */
module PricingList {
  import opened GoStrings
  import opened Ordering

  /** A float64 cost, carried as its IEEE-754 bit pattern and copied through unchanged. */
  datatype Float64 = Float64(bits: bv64)

  /** The billing service's pricing record for one model (the fields the listing reads). */
  datatype Pricing = Pricing(
    inputCostPerToken: Float64,
    outputCostPerToken: Float64,
    cacheCreationInputTokenCost: Float64,
    cacheReadInputTokenCost: Float64,
    provider: string,
    mode: string,
    supportsPromptCaching: bool,
    outputCostPerImage: Float64)

  /** ModelPricingItem: one row of the listing. */
  datatype PricingItem = PricingItem(
    model: string,
    inputCostPerToken: Float64,
    outputCostPerToken: Float64,
    cacheCreationInputTokenCost: Float64,
    cacheReadInputTokenCost: Float64,
    provider: string,
    mode: string,
    supportsPromptCaching: bool,
    outputCostPerImage: Float64)

  /** The pricing record a row was built from. */
  function RecordOf(it: PricingItem): Pricing {
    Pricing(it.inputCostPerToken, it.outputCostPerToken,
            it.cacheCreationInputTokenCost, it.cacheReadInputTokenCost,
            it.provider, it.mode, it.supportsPromptCaching, it.outputCostPerImage)
  }

  /** The row built for `model` from its pricing record: it carries the key and the record unchanged. */
  function ToItem(model: string, p: Pricing): (it: PricingItem)
    ensures it.model == model && RecordOf(it) == p
  {
    PricingItem(model, p.inputCostPerToken, p.outputCostPerToken,
                p.cacheCreationInputTokenCost, p.cacheReadInputTokenCost,
                p.provider, p.mode, p.supportsPromptCaching, p.outputCostPerImage)
  }

  /**
   * How a query parameter is read: surrounding white space removed, then
   * lower-cased. A blank parameter reads as the empty string, which switches
   * its filter off.
   */
  function Normalize(query: string): (r: string)
    ensures |r| <= |query|
    ensures r == "" <==> forall i :: 0 <= i < |query| ==> IsSpace(query[i])
    ensures forall i :: 0 <= i < |r| ==> !('A' <= r[i] <= 'Z')
    ensures |r| == |TrimSpace(query)| && forall i :: 0 <= i < |r| ==> r[i] == LowerChar(TrimSpace(query)[i])
  {
    ToLower(TrimSpace(query))
  }

  /**
   * The listing's filter, for an already normalised `search` and `provider`:
   * an empty one is off; otherwise `search` must occur in the lower-cased
   * model name or provider, and `provider` must equal the lower-cased provider.
   */
  predicate Matches(model: string, p: Pricing, search: string, provider: string)
    ensures search == "" && provider == "" ==> Matches(model, p, search, provider)
    ensures Matches(model, p, search, provider) && search != "" ==>
      (exists i :: OccursAt(ToLower(model), search, i)) || (exists i :: OccursAt(ToLower(p.provider), search, i))
    ensures Matches(model, p, search, provider) && provider != "" ==> ToLower(p.provider) == provider
    ensures (search == "" || (exists i :: OccursAt(ToLower(model), search, i))
                          || (exists i :: OccursAt(ToLower(p.provider), search, i)))
            && (provider == "" || ToLower(p.provider) == provider)
            ==> Matches(model, p, search, provider)
  {
    && (search == "" || Contains(ToLower(model), search) || Contains(ToLower(p.provider), search))
    && (provider == "" || ToLower(p.provider) == provider)
  }

  /** The listing's sort order: by provider, then by model name. */
  predicate ItemLess(x: PricingItem, y: PricingItem)
    ensures ItemLess(x, y) <==>
      StrLess(x.provider, y.provider) || (x.provider == y.provider && StrLess(x.model, y.model))
    ensures ItemLess(x, y) ==> x.provider != y.provider || x.model != y.model
  {
    StrLessIrreflexive(x.provider);
    StrLessIrreflexive(x.model);
    if x.provider != y.provider then StrLess(x.provider, y.provider)
    else StrLess(x.model, y.model)
  }

  /** The model names the filter keeps. */
  ghost function Kept(all: map<string, Pricing>, search: string, provider: string): set<string> {
    set k | k in all && Matches(k, all[k], search, provider)
  }

  /** Every provider named in the map, including the empty one. */
  ghost function ProviderNames(all: map<string, Pricing>): set<string> {
    set k | k in all :: all[k].provider
  }

  /** Every listed item is the row of a map entry that passes the filter. */
  ghost predicate Sound(all: map<string, Pricing>, search: string, provider: string, items: seq<PricingItem>) {
    forall it :: it in items ==>
      it.model in all && it == ToItem(it.model, all[it.model]) && Matches(it.model, all[it.model], search, provider)
  }

  /** Every map entry that passes the filter is listed. */
  ghost predicate Complete(all: map<string, Pricing>, search: string, provider: string, items: seq<PricingItem>) {
    forall k :: k in all && Matches(k, all[k], search, provider) ==> ToItem(k, all[k]) in items
  }

  /** What the listing must be: sound, complete, and strictly ascending by (provider, model). */
  ghost predicate IsListing(all: map<string, Pricing>, search: string, provider: string, items: seq<PricingItem>) {
    && Sound(all, search, provider, items)
    && Complete(all, search, provider, items)
    && StrictlySorted(items, ItemLess)
  }

  /** What the provider list must be: the non-empty providers of the map, strictly ascending. */
  ghost predicate IsProviderList(all: map<string, Pricing>, providers: seq<string>) {
    && (forall p :: p in providers <==> p in ProviderNames(all) && p != "")
    && StrictlySorted(providers, StrLess)
  }

  /**
   * ListPricing. The map is enumerated in an arbitrary order (Go's map
   * iteration order is unspecified); the rows are then sorted in place, and
   * the providers seen are listed and sorted.
   */
  method ListPricing(all: map<string, Pricing>, searchQuery: string, providerQuery: string)
    returns (items: seq<PricingItem>, total: int, providers: seq<string>)
    ensures Sound(all, Normalize(searchQuery), Normalize(providerQuery), items)
    ensures Complete(all, Normalize(searchQuery), Normalize(providerQuery), items)
    ensures StrictlySorted(items, ItemLess)
    ensures total == |items|
    ensures forall p :: p in providers <==> p in ProviderNames(all) && p != ""
    ensures StrictlySorted(providers, StrLess)
  {
    var search := Normalize(searchQuery);
    var provider := Normalize(providerQuery);
    var collected, seen := CollectEntries(all, search, provider);

    items := SortItems(collected);
    total := |items|;
    SortedListing(all, search, provider, collected, items);

    providers := ProviderList(seen);
  }

  /**
   * The loop of ListPricing over the map: records every entry's provider in
   * `seen`, and appends the row of every entry that passes the filter.
   */
  method CollectEntries(all: map<string, Pricing>, search: string, provider: string)
    returns (collected: seq<PricingItem>, seen: set<string>)
    ensures Sound(all, search, provider, collected)
    ensures Complete(all, search, provider, collected)
    ensures NoDuplicates(collected)
    ensures seen == ProviderNames(all)
  {
    collected, seen := [], {};
    var remaining := all.Keys;
    while remaining != {}
      invariant remaining <= all.Keys
      invariant forall k :: k in seen <==> exists m :: m in all && m !in remaining && all[m].provider == k
      invariant forall it :: it in collected ==>
        it.model in all && it.model !in remaining && it == ToItem(it.model, all[it.model])
        && Matches(it.model, all[it.model], search, provider)
      invariant forall k :: k in all && k !in remaining && Matches(k, all[k], search, provider) ==>
        ToItem(k, all[k]) in collected
      invariant NoDuplicates(collected)
      decreases |remaining|
    {
      var model :| model in remaining;
      var pricing := all[model];
      remaining := remaining - {model};
      seen := seen + {pricing.provider};

      if search != "" && !Contains(ToLower(model), search) && !Contains(ToLower(pricing.provider), search) {
        continue;
      }
      if provider != "" && ToLower(pricing.provider) != provider {
        continue;
      }
      collected := collected + [ToItem(model, pricing)];
    }
  }

  /** sort.Slice on the rows, by provider and then model name. */
  method SortItems(collected: seq<PricingItem>) returns (items: seq<PricingItem>)
    ensures multiset(items) == multiset(collected)
    ensures Sorted(items, ItemLess)
  {
    var a := new PricingItem[|collected|](i requires 0 <= i < |collected| => collected[i]);
    assert a[..] == collected;
    ItemLessIsStrictWeakOrder();
    SortSlice(a, ItemLess);
    items := a[..];
  }

  /**
   * The end of ListPricing: the non-empty providers seen, sorted in place
   * with sort.Strings.
   */
  method ProviderList(seen: set<string>) returns (providers: seq<string>)
    ensures forall p :: p in providers <==> p in seen && p != ""
    ensures StrictlySorted(providers, StrLess)
  {
    var names: seq<string> := [];
    var rest := seen;
    while rest != {}
      invariant rest <= seen
      invariant forall p :: p in names <==> p in seen && p !in rest && p != ""
      invariant NoDuplicates(names)
      decreases |rest|
    {
      var p :| p in rest;
      if p != "" {
        names := names + [p];
      }
      rest := rest - {p};
    }

    var sorted := new string[|names|](i requires 0 <= i < |names| => names[i]);
    assert sorted[..] == names;
    StrLessIsStrictWeakOrder();
    SortSlice(sorted, StrLess);
    providers := sorted[..];
    NoDuplicatesPermutation(names, providers);
    forall p, q | 0 <= p < q < |providers| ensures StrLess(providers[p], providers[q]) {
      StrLessConnected(providers[p], providers[q]);
    }
    forall p ensures p in providers <==> p in seen && p != "" {
      assert p in providers <==> p in multiset(names);
    }
  }

  /** Sorting the collected rows keeps them a listing and makes them strictly ascending. */
  lemma SortedListing(all: map<string, Pricing>, search: string, provider: string,
                      collected: seq<PricingItem>, items: seq<PricingItem>)
    requires Sound(all, search, provider, collected) && Complete(all, search, provider, collected)
    requires NoDuplicates(collected)
    requires multiset(items) == multiset(collected) && Sorted(items, ItemLess)
    ensures IsListing(all, search, provider, items)
  {
    NoDuplicatesPermutation(collected, items);
    forall it ensures it in items <==> it in collected {
      assert it in items <==> it in multiset(collected);
    }
    SortedListingIsStrict(all, search, provider, items);
  }

  /**
   * Rows taken from the map without repetition and sorted by (provider, model)
   * are strictly ascending: model names are map keys, so no two rows share
   * both provider and model.
   */
  lemma SortedListingIsStrict(all: map<string, Pricing>, search: string, provider: string, items: seq<PricingItem>)
    requires Sound(all, search, provider, items)
    requires Sorted(items, ItemLess) && NoDuplicates(items)
    ensures StrictlySorted(items, ItemLess)
  {
    forall p, q | 0 <= p < q < |items| ensures ItemLess(items[p], items[q]) {
      assert items[p] in items && items[q] in items;
      ItemLessTotal(items[p], items[q]);
    }
  }

  /** Go's string order is a strict weak order, as sort.Strings needs. */
  lemma StrLessIsStrictWeakOrder()
    ensures StrictWeakOrder(StrLess)
  {
    forall x ensures !StrLess(x, x) {
      StrLessIrreflexive(x);
    }
    forall x, y, z | StrLess(x, y) && StrLess(y, z) ensures StrLess(x, z) {
      StrLessTransitive(x, y, z);
    }
    forall x, y, z | !StrLess(y, x) && !StrLess(z, y) ensures !StrLess(z, x) {
      if x != y {
        StrLessConnected(x, y);
      }
      if y != z {
        StrLessConnected(y, z);
      }
      if StrLess(x, y) && StrLess(y, z) {
        StrLessTransitive(x, y, z);
        StrLessIrreflexive(x);
        if StrLess(z, x) {
          StrLessTransitive(x, z, x);
        }
      }
    }
  }

  /** The (provider, model) order is a strict weak order, as sort.Slice needs. */
  lemma ItemLessIsStrictWeakOrder()
    ensures StrictWeakOrder(ItemLess)
  {
    forall x ensures !ItemLess(x, x) {
      StrLessIrreflexive(x.model);
    }
    forall x, y, z | ItemLess(x, y) && ItemLess(y, z) ensures ItemLess(x, z) {
      ItemLessTransitive(x, y, z);
    }
    forall x, y, z | !ItemLess(y, x) && !ItemLess(z, y) ensures !ItemLess(z, x) {
      if ItemLess(z, x) {
        ItemLessTotal(x, y);
        ItemLessTotal(y, z);
        if ItemLess(x, y) {
          ItemLessTransitive(z, x, y);
          ItemLessAsymmetric(z, y);
        } else {
          ItemLessTransitive(z, x, z);
          StrLessIrreflexive(z.model);
        }
      }
    }
  }

  lemma ItemLessTransitive(x: PricingItem, y: PricingItem, z: PricingItem)
    requires ItemLess(x, y) && ItemLess(y, z)
    ensures ItemLess(x, z)
  {
    if x.provider != y.provider && y.provider != z.provider {
      StrLessTransitive(x.provider, y.provider, z.provider);
      if x.provider == z.provider {
        StrLessIrreflexive(x.provider);
      }
    } else if x.provider == y.provider && y.provider == z.provider {
      StrLessTransitive(x.model, y.model, z.model);
    }
  }

  lemma ItemLessAsymmetric(x: PricingItem, y: PricingItem)
    requires ItemLess(x, y)
    ensures !ItemLess(y, x)
  {
    if ItemLess(y, x) {
      ItemLessTransitive(x, y, x);
      StrLessIrreflexive(x.model);
    }
  }

  /** Unless they share provider and model, one of two items sorts before the other. */
  lemma ItemLessTotal(x: PricingItem, y: PricingItem)
    ensures ItemLess(x, y) || ItemLess(y, x) || (x.provider == y.provider && x.model == y.model)
  {
    if x.provider != y.provider {
      StrLessConnected(x.provider, y.provider);
    } else if x.model != y.model {
      StrLessConnected(x.model, y.model);
    }
  }

  /**
   * The listing does not depend on the order in which the map was
   * enumerated: any two results that meet ListPricing's contract for the
   * same map and queries are the same sequence.
   */
  lemma ListingDeterministic(all: map<string, Pricing>, search: string, provider: string,
                             a: seq<PricingItem>, b: seq<PricingItem>)
    requires IsListing(all, search, provider, a) && IsListing(all, search, provider, b)
    ensures a == b
  {
    ItemLessIsStrictWeakOrder();
    forall it ensures it in a <==> it in b {
      if it in a {
        assert ToItem(it.model, all[it.model]) in b;
      }
      if it in b {
        assert ToItem(it.model, all[it.model]) in a;
      }
    }
    StrictlySortedUnique(a, b, ItemLess);
  }

  /** Likewise the provider list is determined by the map alone. */
  lemma ProviderListDeterministic(all: map<string, Pricing>, a: seq<string>, b: seq<string>)
    requires IsProviderList(all, a) && IsProviderList(all, b)
    ensures a == b
  {
    StrLessIsStrictWeakOrder();
    StrictlySortedUnique(a, b, StrLess);
  }

  /** The model names of some rows. */
  ghost function Models(items: seq<PricingItem>): set<string> {
    set it | it in items :: it.model
  }

  lemma {:induction false} DistinctModelsCount(items: seq<PricingItem>)
    requires forall p, q :: 0 <= p < q < |items| ==> items[p].model != items[q].model
    ensures |Models(items)| == |items|
    decreases |items|
  {
    if items != [] {
      DistinctModelsCount(items[1..]);
      assert Models(items) == Models(items[1..]) + {items[0].model};
      assert items[0].model !in Models(items[1..]);
    }
  }

  /**
   * Every kept map entry is listed exactly once: no model name appears in two
   * rows, and the number of rows (the response's `total`) is the number of
   * entries the filter keeps.
   */
  lemma ListingLength(all: map<string, Pricing>, search: string, provider: string, items: seq<PricingItem>)
    requires IsListing(all, search, provider, items)
    ensures forall p, q :: 0 <= p < q < |items| ==> items[p].model != items[q].model
    ensures |items| == |Kept(all, search, provider)|
  {
    forall p, q | 0 <= p < q < |items| ensures items[p].model != items[q].model {
      assert items[p] in items && items[q] in items;
      assert ItemLess(items[p], items[q]);
      StrLessIrreflexive(items[p].model);
    }
    DistinctModelsCount(items);
    assert Models(items) == Kept(all, search, provider) by {
      forall k ensures k in Models(items) <==> k in Kept(all, search, provider) {
        if k in Kept(all, search, provider) {
          assert ToItem(k, all[k]) in items;
        }
      }
    }
  }

  /** With both filters off, every entry of the map is listed. */
  lemma UnfilteredListing(all: map<string, Pricing>, items: seq<PricingItem>)
    requires IsListing(all, "", "", items)
    ensures forall k :: k in all ==> ToItem(k, all[k]) in items
    ensures |items| == |all|
  {
    ListingLength(all, "", "", items);
    assert Kept(all, "", "") == all.Keys;
  }
}
