/** From an Offer to what is billed: pricing snapshots become plan items, the plan is ensured, and
    the account then charges what the Offer says. */
module Offers {
  import opened Ordering
  import opened Pricing
  import opened ProductItems
  import opened ProductPlans
  import opened Results
  import opened Server

  /** A ServicePricing snapshot of an Offer. */
  datatype Snapshot = Snapshot(
    name: string, displayName: string, charge: Charge, metric: string, rates: seq<PricingRate>, amount: Decimal)

  function LabelOf(snap: Snapshot): string { if snap.displayName == "" then snap.name else snap.displayName }

  function PlanItemFromSnapshot(snap: Snapshot, index: map<string, string>): Option<PlanItem> {
    match snap.charge
    case Usage =>
      var meter := if snap.metric in index then index[snap.metric] else "";
      var rates := PlanRatesOf(snap.rates);
      if meter == "" || rates.None? then None
      else Some(PlanItem(snap.name, LabelOf(snap), Usage, meter, rates.value, 0.0))
    case OneTime | Recurring =>
      if !snap.amount.Number? then None
      else Some(PlanItem(snap.name, LabelOf(snap), snap.charge, "", [], snap.amount.v))
    case Unsupported => None
  }

  /** The items of a plan are the snapshots', one by one. */
  predicate Compiled(snaps: seq<Snapshot>, index: map<string, string>, items: seq<PlanItem>) {
    && |items| == |snaps|
    && forall i | 0 <= i < |snaps| :: PlanItemFromSnapshot(snaps[i], index) == Some(items[i])
  }

  method DesiredProductPlan(uid: string, name: string, displayName: string, snaps: seq<Snapshot>, index: map<string,
                            string>)
      returns (r: Option<DesiredPlan>)
    ensures r.Some? <==> forall i | 0 <= i < |snaps| :: PlanItemFromSnapshot(snaps[i], index).Some?
    ensures r.Some? ==>
              Compiled(snaps, index, r.value.items) && r.value.id == uid && r.value.description == name
              && r.value.name == FirstNonEmpty(displayName, name)
  {
    hide PlanItemFromSnapshot;
    var items: seq<PlanItem> := [];
    var i := 0;
    while i < |snaps|
      invariant 0 <= i <= |snaps| && |items| == i
      invariant forall k | 0 <= k < i :: PlanItemFromSnapshot(snaps[k], index) == Some(items[k])
    {
      var item := PlanItemFromSnapshot(snaps[i], index);
      if item.None? {
        return None;
      }
      items := items + [item.value];
      i := i + 1;
    }
    return Some(DesiredPlan(uid, FirstNonEmpty(displayName, name), name, "", "", items));
  }

  // ---- usage --------------------------------------------------------------

  /** The price stored for a usage snapshot: on an item that points at the metric's meter, pricing
      exactly the events the Offer prices, at the Offer's charge up to the truncation tolerance. */
  predicate PricedAsOffered(st: State, planId: string, snap: Snapshot, meter: string, dims: Dimensions, q: real) {
    var id := PriceId(planId, snap.name);
    && id in st.prices && PointsAt(st.items, st.prices[id].item, meter)
    && var picked, offered := MachinePick(st.prices[id].machine, dims), OfferPick(snap.rates, dims);
       (picked.Some? <==> offered.Some?) && (picked.Some? ==> LeafPrices(picked.value, offered.value, q))
  }

  /** The stored plan charges that price for the item. */
  predicate PlanCharges(st: State, planId: string, snap: Snapshot) {
    var id := PriceId(planId, snap.name);
    && planId in st.plans && id in st.prices && st.prices[id].item in st.plans[planId].priceIds
    && st.plans[planId].priceIds[st.prices[id].item] == id
  }

  predicate BilledAsOffered(st: State, planId: string, snap: Snapshot, meter: string, dims: Dimensions, q: real) {
    PlanCharges(st, planId, snap) && PricedAsOffered(st, planId, snap, meter, dims, q)
  }

  /** No later usage item is on the same meter. */
  predicate LastOnMeter(items: seq<PlanItem>, i: nat)
    requires i < |items|
  {
    forall j | i < j < |items| && items[j].charge.Usage? :: items[j].meter != items[i].meter
  }

  /** The end-to-end result: once an Offer's plan is ensured, every usage snapshot has its price, as
      offered, for every event and quantity; and the plan charges it, unless a later snapshot is on the
      same meter. */
  lemma UsageBilledAsOffered(st: State, d: DesiredPlan, snaps: seq<Snapshot>, index: map<string, string>, i: nat,
                             dims: Dimensions, q: real)
    requires PlanSound(st, d) && Compiled(snaps, index, d.items)
    requires i < |snaps| && snaps[i].charge.Usage?
    requires forall k | 0 <= k < |snaps[i].rates| :: Admitted(snaps[i].rates[k])
    requires snaps[i].rates != [] && snaps[i].rates[0].filter.Some? ==> snaps[i].rates[0].filter.value.dimension != ""
    ensures snaps[i].metric in index && PricedAsOffered(st, d.id, snaps[i], index[snaps[i].metric], dims, q)
    ensures LastOnMeter(d.items, i) ==> BilledAsOffered(st, d.id, snaps[i], index[snaps[i].metric], dims, q)
  {
    hide PlanStored, LeafPrices, MachinePick, OfferPick, MachineOf, PlanRatesOf, Admitted, LastOnMeter;
    SoundIsPlaced(st, d);
    var gs: seq<PriceGenerator> :| PlanStored(st, d, gs) && AllPlaced(st, d, gs) && |gs| == |Usages(d.items)|;
    var t := |Usages(d.items[..i])|;
    assert PlanItemFromSnapshot(snaps[i], index) == Some(d.items[i]);
    UsagesPrefix(d.items, i);
    assert Placed(st, d, Usages(d.items)[t], gs[t]);
    NoRatesNoMachine(snaps[i].rates);
    CompiledMachineCharge(snaps[i].rates, st.prices[gs[t].priceId].machine, dims, q);
    if LastOnMeter(d.items, i) {
      LastItemCharged(st, d, gs, i);
    }
  }

  /** Usage items after the t-th come from later items. */
  lemma {:induction false} LaterUsage(items: seq<PlanItem>, i: nat, u: nat)
    requires i < |items| && |Usages(items[..i + 1])| <= u < |Usages(items)|
    ensures exists j :: i < j < |items| && items[j].charge.Usage? && items[j] == Usages(items)[u]
  {
    var n := |items| - 1;
    assert items[..n + 1] == items;
    if i < n && u < |Usages(items[..n])| {
      assert items[..n][..i + 1] == items[..i + 1];
      LaterUsage(items[..n], i, u);
    }
  }

  lemma {:induction false} LastEntryStays(gs: seq<PriceGenerator>, t: nat)
    requires t < |gs| && forall u | t < u < |gs| :: gs[u].item != gs[t].item
    ensures gs[t].item in PriceMap(gs) && PriceMap(gs)[gs[t].item] == gs[t].priceId
  {
    var n := |gs| - 1;
    if t < n {
      LastEntryStays(gs[..n], t);
    }
  }

  lemma LastItemCharged(st: State, d: DesiredPlan, gs: seq<PriceGenerator>, i: nat)
    requires PlanStored(st, d, gs) && AllPlaced(st, d, gs) && i < |d.items| && d.items[i].charge.Usage?
    requires LastOnMeter(d.items, i)
    ensures d.id in st.plans && PriceId(d.id, d.items[i].id) in st.prices
    ensures var item := st.prices[PriceId(d.id, d.items[i].id)].item;
      item in st.plans[d.id].priceIds && st.plans[d.id].priceIds[item] == PriceId(d.id, d.items[i].id)
  {
    hide PlanStored, MachineOf, GeneratorOf, PriceMap;
    StoredPriceIds(st, d, gs);
    UsagesPrefix(d.items, i);
    var us, t := Usages(d.items), |Usages(d.items[..i])|;
    assert Placed(st, d, us[t], gs[t]);
    forall u | t < u < |gs| ensures gs[u].item != gs[t].item {
      LaterUsage(d.items, i, u);
      assert Placed(st, d, us[u], gs[u]);
    }
    LastEntryStays(gs, t);
  }

  lemma {:induction false} LaterEntryWins(gs: seq<PriceGenerator>, t: nat, u: nat)
    requires t < u < |gs| && gs[u].item == gs[t].item
    requires forall w | 0 <= w < |gs| && w != t :: gs[w].priceId != gs[t].priceId
    ensures gs[t].item in PriceMap(gs) && PriceMap(gs)[gs[t].item] != gs[t].priceId
  {
    var n := |gs| - 1;
    if gs[n].item != gs[t].item {
      LaterEntryWins(gs[..n], t, u);
    }
  }

  lemma {:induction false} ValueOfEntry(gs: seq<PriceGenerator>, k: string)
    requires k in PriceMap(gs)
    ensures exists w :: 0 <= w < |gs| && gs[w].item == k && gs[w].priceId == PriceMap(gs)[k]
  {
    ByItemEntries(gs, k);
  }

  /** The proviso is exact: the stored plan of a settled Offer charges a usage item's price if and only
      if no later usage item is on the same meter. */
  lemma {:induction false} ChargedExactly(st: State, d: DesiredPlan, gs: seq<PriceGenerator>, i: nat)
    requires PlanSettled(st, d, gs) && DistinctIds(Usages(d.items)) && i < |d.items| && d.items[i].charge.Usage?
    ensures PriceId(d.id, d.items[i].id) in st.plans[d.id].priceIds.Values <==> LastOnMeter(d.items, i)
  {
    hide PlanStored, MachineOf, GeneratorOf, PriceMap, PriceSettled, ItemSettled, Usages, LastOnMeter;
    StoredPriceIds(st, d, gs);
    UsagesPrefix(d.items, i);
    var us, t := Usages(d.items), |Usages(d.items[..i])|;
    assert UseSettled(st, d, us[t], gs[t]);
    if LastOnMeter(d.items, i) {
      AllSettledIsPlaced(st, d, gs);
      LastItemCharged(st, d, gs, i);
      assert Placed(st, d, us[t], gs[t]);
    } else {
      var u := LaterOnMeter(d.items, i);
      assert UseSettled(st, d, us[u], gs[u]);
      SettledItemsAgree(st.items, us[t].meter, gs[t].item, gs[u].item);
      forall w | 0 <= w < |gs| && w != t ensures gs[w].priceId != gs[t].priceId {
        assert UseSettled(st, d, us[w], gs[w]);
        PriceIdsDiffer(d.id, us[w].id, us[t].id);
      }
      LaterEntryWins(gs, t, u);
      forall k | k in PriceMap(gs) ensures PriceMap(gs)[k] != gs[t].priceId {
        ValueOfEntry(gs, k);
      }
    }
  }

  lemma AllSettledIsPlaced(st: State, d: DesiredPlan, gs: seq<PriceGenerator>)
    requires AllSettled(st, d, gs)
    ensures AllPlaced(st, d, gs)
  {
    hide GeneratorOf, MachineOf, Usages;
    forall t | 0 <= t < |gs| ensures Placed(st, d, Usages(d.items)[t], gs[t]) {
      assert UseSettled(st, d, Usages(d.items)[t], gs[t]);
    }
  }

  lemma {:induction false} LaterOnMeter(items: seq<PlanItem>, i: nat) returns (u: nat)
    requires i < |items| && items[i].charge.Usage? && !LastOnMeter(items, i)
    ensures |Usages(items[..i])| < u < |Usages(items)| && Usages(items)[u].meter == items[i].meter
  {
    var j :| i < j < |items| && items[j].charge.Usage? && items[j].meter == items[i].meter;
    UsagesPrefix(items, i);
    UsagesPrefix(items, j);
    UsagesPrefix(items[..j], i + 1);
    assert items[..j][..i + 1] == items[..i + 1];
    u := |Usages(items[..j])|;
  }

  lemma SoundIsPlaced(st: State, d: DesiredPlan)
    requires PlanSound(st, d)
    ensures exists gs :: PlanStored(st, d, gs) && AllPlaced(st, d, gs) && |gs| == |Usages(d.items)|
  {
  }

  lemma {:induction false} NoRatesNoMachine(rates: seq<PricingRate>)
    requires PlanRatesOf(rates).Some? && MachineOf(PlanRatesOf(rates).value).Some?
    ensures rates != []
  {
  }

  // ---- fees ---------------------------------------------------------------

  predicate DistinctNames(snaps: seq<Snapshot>) {
    forall i, j | 0 <= i < j < |snaps| :: snaps[i].name != snaps[j].name
  }

  /** Every fixed fee of the Offer is in the plan, under its snapshot's name, at its amount. */
  lemma {:induction false} FeeCompiled(snaps: seq<Snapshot>, index: map<string, string>, items: seq<PlanItem>, i: nat)
    requires Compiled(snaps, index, items) && DistinctNames(snaps) && i < |snaps|
    requires snaps[i].charge.OneTime? || snaps[i].charge.Recurring?
    ensures snaps[i].amount.Number? && snaps[i].name in FeesOf(items)
    ensures FeesOf(items)[snaps[i].name].cost == snaps[i].amount.v
    ensures FeesOf(items)[snaps[i].name].oneTime == snaps[i].charge.OneTime?
    decreases |snaps|
  {
    var n := |snaps| - 1;
    assert PlanItemFromSnapshot(snaps[i], index) == Some(items[i]);
    if i < n {
      assert PlanItemFromSnapshot(snaps[n], index) == Some(items[n]);
      FeeCompiled(snaps[..n], index, items[..n], i);
    }
  }

  lemma FeesBilledAsOffered(st: State, d: DesiredPlan, snaps: seq<Snapshot>, index: map<string, string>, i: nat)
    requires PlanSound(st, d) && Compiled(snaps, index, d.items) && DistinctNames(snaps)
    requires i < |snaps| && (snaps[i].charge.OneTime? || snaps[i].charge.Recurring?)
    ensures d.id in st.plans && snaps[i].name in st.plans[d.id].fees && snaps[i].amount.Number?
    ensures st.plans[d.id].fees[snaps[i].name].cost == snaps[i].amount.v
    ensures st.plans[d.id].fees[snaps[i].name].oneTime == snaps[i].charge.OneTime?
  {
    hide FeesOf, EntriesSound, Compiled, PairsOf;
    PlanSoundMeans(st, d);
    FeeCompiled(snaps, index, d.items, i);
  }
}
