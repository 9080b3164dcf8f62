/** Reconciling and deleting a product plan: items, prices, fees and the plan generator. */
module ProductPlans {
  import opened Meters
  import opened Naming
  import opened Pricing
  import opened ProductItems
  import opened Results
  import opened Server

  datatype Charge = Usage | OneTime | Recurring | Unsupported

  datatype PlanItem = PlanItem(
    id: string, title: string, charge: Charge, meter: string, rates: seq<PlanRate>, amount: real)

  datatype DesiredPlan = DesiredPlan(
    id: string, name: string, description: string, product: string, currency: string, items: seq<PlanItem>)

  const CUSTOM_PLAN := "custom_pricing_plan"

  function FirstNonEmpty(a: string, b: string): string { if a != "" then a else b }

  function PriceId(planId: string, itemId: string): string { planId + "--" + itemId }

  function WithDefaults(d: DesiredPlan): DesiredPlan {
    d.(name := FirstNonEmpty(d.name, d.id), product := FirstNonEmpty(d.product, "1"),
       currency := FirstNonEmpty(d.currency, "USD"))
  }

  // ---- what a usage item becomes ------------------------------------------

  function WantItem(d: DesiredPlan, item: PlanItem): ItemRow {
    ItemRow(item.meter, Item(FirstNonEmpty(item.title, item.meter), item.meter, d.product, Unset))
  }

  function PriceName(d: DesiredPlan, item: PlanItem): string {
    DisambiguatedLabel(FirstNonEmpty(item.title, item.id), PriceId(d.id, item.id))
  }

  function WantPrice(d: DesiredPlan, item: PlanItem, pid: string, machine: Machine): Price {
    Price(pid, PriceName(d, item), machine, CloseToChanges)
  }

  function WantGenerator(d: DesiredPlan, item: PlanItem, pid: string, machine: Machine): PriceGenerator {
    PriceGenerator(pid, PriceId(d.id, item.id), PriceName(d, item), GeneratorOf(machine))
  }

  /** What the loop demands of an item before it does anything for it. */
  predicate Acceptable(item: PlanItem) {
    && item.id != "" && !item.charge.Unsupported?
    && (item.charge.Usage? ==> item.meter != "" && MachineOf(item.rates).Some?)
  }

  predicate AllAcceptable(items: seq<PlanItem>) { forall item | item in items :: Acceptable(item) }

  function Usages(items: seq<PlanItem>): seq<PlanItem> {
    if items == [] then []
    else
      var n := |items| - 1;
      Usages(items[..n]) + (if items[n].charge.Usage? then [items[n]] else [])
  }

  function FeesOf(items: seq<PlanItem>): map<string, Fee> {
    if items == [] then map[]
    else
      var n := |items| - 1;
      FeesStep(FeesOf(items[..n]), items[n])
  }

  function FeesStep(fees: map<string, Fee>, item: PlanItem): map<string, Fee> {
    if item.charge.OneTime? || item.charge.Recurring? then
      fees[item.id := Fee(FirstNonEmpty(item.title, item.id), item.amount, item.charge.OneTime?)]
    else fees
  }

  /** The price map of a list of generators: a later price for the same item wins. */
  function PriceMap(gs: seq<PriceGenerator>): map<string, string> {
    if gs == [] then map[]
    else PriceMap(gs[..|gs| - 1])[gs[|gs| - 1].item := gs[|gs| - 1].priceId]
  }

  // ---- generators compared by item ----------------------------------------

  function ByItem(gs: seq<PriceGenerator>): map<string, PriceGenerator> {
    if gs == [] then map[]
    else ByItem(gs[..|gs| - 1])[gs[|gs| - 1].item := gs[|gs| - 1]]
  }

  predicate SamePricing(a: PriceGenerator, b: PriceGenerator) {
    a.priceId == b.priceId && a.pricing == b.pricing
  }

  predicate PricesAgree(a: seq<PriceGenerator>, b: seq<PriceGenerator>) {
    && |a| == |b| && ByItem(a).Keys == ByItem(b).Keys
    && forall i | i in ByItem(a) :: SamePricing(ByItem(a)[i], ByItem(b)[i])
  }

  predicate PlanGeneratorsEqual(a: Option<PlanGenerator>, b: Option<PlanGenerator>) {
    if a.None? || b.None? then a.None? && b.None?
    else
      var x, y := a.value, b.value;
      x.kind == y.kind && x.name == y.name && x.description == y.description && x.fees == y.fees
      && PricesAgree(x.prices, y.prices)
  }

  predicate ProductPlanNeedsUpdate(existing: Plan, want: Plan) {
    || existing.name != want.name
    || existing.description != want.description
    || (existing.currency != want.currency && want.currency != "")
    || (existing.lock != want.lock && !want.lock.Unset?)
    || (existing.kind != want.kind && want.kind != "")
    || existing.priceIds != want.priceIds
    || existing.fees != want.fees
    || !PlanGeneratorsEqual(existing.generator, want.generator)
  }

  predicate DistinctItems(gs: seq<PriceGenerator>) {
    forall i, j | 0 <= i < j < |gs| :: gs[i].item != gs[j].item
  }

  /** Two generators of one plan for the same item and the same price. */
  predicate Holds(gs: seq<PriceGenerator>, g: PriceGenerator) {
    exists i :: 0 <= i < |gs| && gs[i].item == g.item && SamePricing(gs[i], g)
  }

  predicate HasItem(gs: seq<PriceGenerator>, item: string) {
    exists i :: 0 <= i < |gs| && gs[i].item == item
  }

  lemma {:induction false} ByItemEntries(gs: seq<PriceGenerator>, k: string)
    ensures k in ByItem(gs) <==> HasItem(gs, k)
    ensures k in ByItem(gs) ==> ByItem(gs)[k] in gs && ByItem(gs)[k].item == k
    ensures k in PriceMap(gs) <==> k in ByItem(gs)
    ensures k in ByItem(gs) ==> PriceMap(gs)[k] == ByItem(gs)[k].priceId
  {
    if gs != [] {
      var n := |gs| - 1;
      ByItemEntries(gs[..n], k);
      assert gs == gs[..n] + [gs[n]];
    }
  }

  lemma {:induction false} ByItemDistinct(gs: seq<PriceGenerator>, i: nat)
    requires DistinctItems(gs) && i < |gs|
    ensures gs[i].item in ByItem(gs) && ByItem(gs)[gs[i].item] == gs[i]
  {
    var n := |gs| - 1;
    if i < n {
      ByItemDistinct(gs[..n], i);
    }
  }

  lemma {:induction false} ByItemSize(gs: seq<PriceGenerator>)
    ensures |ByItem(gs)| <= |gs|
    ensures |ByItem(gs)| == |gs| <==> DistinctItems(gs)
  {
    if gs != [] {
      var n := |gs| - 1;
      var front, last := ByItem(gs[..n]), gs[n].item;
      ByItemSize(gs[..n]);
      ByItemEntries(gs[..n], last);
      assert ByItem(gs).Keys == front.Keys + {last};
      assert |ByItem(gs).Keys| == |front.Keys| + if last in front then 0 else 1;
      if last !in front {
        assert forall i | 0 <= i < n :: gs[..n][i].item != last;
      } else {
        var i :| 0 <= i < n && gs[..n][i].item == last;
        assert gs[i].item == gs[n].item;
      }
    }
  }

  /** planGeneratorsEqual is an equivalence. */
  lemma GeneratorsEqualEquivalence(a: Option<PlanGenerator>, b: Option<PlanGenerator>, c: Option<PlanGenerator>)
    ensures PlanGeneratorsEqual(a, a)
    ensures PlanGeneratorsEqual(a, b) ==> PlanGeneratorsEqual(b, a)
    ensures PlanGeneratorsEqual(a, b) && PlanGeneratorsEqual(b, c) ==> PlanGeneratorsEqual(a, c)
  {
  }

  lemma AgreeHolds(a: seq<PriceGenerator>, b: seq<PriceGenerator>, g: PriceGenerator)
    requires PricesAgree(a, b) && DistinctItems(a) && g in a
    ensures Holds(b, g)
  {
    var i :| 0 <= i < |a| && a[i] == g;
    ByItemDistinct(a, i);
    ByItemEntries(b, g.item);
  }

  lemma {:induction false} HoldsByItem(gs: seq<PriceGenerator>, g: PriceGenerator)
    requires DistinctItems(gs) && Holds(gs, g)
    ensures g.item in ByItem(gs) && SamePricing(ByItem(gs)[g.item], g)
  {
    var i :| 0 <= i < |gs| && gs[i].item == g.item && SamePricing(gs[i], g);
    ByItemDistinct(gs, i);
  }

  /** With distinct items it compares the two lists as sets, so order does not matter. */
  lemma PricesAgreeAsSets(a: seq<PriceGenerator>, b: seq<PriceGenerator>)
    requires DistinctItems(b)
    ensures PricesAgree(a, b) <==>
              DistinctItems(a) && (forall g | g in a :: Holds(b, g)) && (forall g | g in b :: Holds(a, g))
  {
    ByItemSize(a);
    ByItemSize(b);
    assert |ByItem(a)| == |ByItem(a).Keys| && |ByItem(b)| == |ByItem(b).Keys|;
    if PricesAgree(a, b) {
      forall g | g in a ensures Holds(b, g) { AgreeHolds(a, b, g); }
      forall g | g in b ensures Holds(a, g) { AgreeHolds(b, a, g); }
    }
    if DistinctItems(a) && (forall g | g in a :: Holds(b, g)) && (forall g | g in b :: Holds(a, g)) {
      forall k
        ensures k in ByItem(a) <==> k in ByItem(b)
        ensures k in ByItem(a) ==> SamePricing(ByItem(a)[k], ByItem(b)[k])
      {
        ByItemEntries(a, k);
        ByItemEntries(b, k);
        if k in ByItem(a) { HoldsByItem(b, ByItem(a)[k]); }
        if k in ByItem(b) { HoldsByItem(a, ByItem(b)[k]); }
      }
      assert ByItem(a).Keys == ByItem(b).Keys;
    }
  }

  /** In particular any reordering is equal. */
  lemma ReorderedPricesAgree(a: seq<PriceGenerator>, b: seq<PriceGenerator>)
    requires DistinctItems(a) && DistinctItems(b)
    requires forall g :: g in a <==> g in b
    ensures PricesAgree(a, b)
  {
    forall g | g in a ensures Holds(b, g) && Holds(a, g) {
      var i :| 0 <= i < |a| && a[i] == g;
      assert g in b;
      var j :| 0 <= j < |b| && b[j] == g;
    }
    PricesAgreeAsSets(a, b);
  }

  // ---- item prices --------------------------------------------------------

  predicate PriceNameAcceptable(existing: string, want: string, id: string) {
    existing == want || existing == DisambiguatedLabel(want, id)
  }

  predicate NameIsOwn(prices: Prices, id: string)
    requires id in prices
  {
    forall k | k in prices && k != id :: prices[k].name != prices[id].name
  }

  predicate NameTaken(prices: Prices, id: string, name: string) {
    exists k :: k in prices && k != id && prices[k].name == name
  }

  /** A stored price must keep its name, which nobody else may have; a new one may take the wanted
      name or the one made unique by the id. */
  predicate PriceWritable(prices: Prices, id: string, name: string) {
    if id in prices && prices[id].name != "" then !NameTaken(prices, id, prices[id].name)
    else !NameTaken(prices, id, name) || !NameTaken(prices, id, DisambiguatedLabel(name, id))
  }

  predicate PriceAsWanted(prices: Prices, id: string, want: Price) {
    && id in prices && prices[id].item == want.item && prices[id].machine == want.machine
    && PriceNameAcceptable(prices[id].name, want.name, id)
  }

  /** The wanted price is stored, under a name that ensuring it again will leave alone. */
  predicate PriceSettled(prices: Prices, id: string, want: Price) {
    && id in prices && prices[id].item == want.item && prices[id].machine == want.machine
    && (PriceNameAcceptable(prices[id].name, want.name, id)
        || (prices[id].name != "" && prices[id].lock == want.lock && NameIsOwn(prices, id)))
  }

  /** The name a price is written under. */
  function WrittenName(prices: Prices, id: string, name: string): string {
    if id in prices && prices[id].name != "" then prices[id].name
    else if NameTaken(prices, id, name) then DisambiguatedLabel(name, id) else name
  }

  /** The prices a failure-free call ends with; None if it cannot store the price. */
  function EnsuredPrice(prices: Prices, id: string, want: Price): Option<Prices> {
    if PriceAsWanted(prices, id, want) then Some(prices)
    else if PriceWritable(prices, id, want.name) then
      Some(prices[id := want.(name := WrittenName(prices, id, want.name))])
    else None
  }

  /** Only the price `id` may change, and then under a name of its own. */
  predicate PriceEdit(before: Prices, after: Prices, id: string) {
    after == before || (id in after && after == before[id := after[id]] && NameIsOwn(after, id))
  }

  lemma PostPriceEffect(f: Fault, st: State, id: string, price: Price)
    requires id != ""
    ensures var (after, r) := SettlePostPrice(f, st, id, price);
      && after == st.(prices := after.prices) && PriceEdit(st.prices, after.prices, id)
      && (r.Ok? ==> id in after.prices && after.prices[id] == price && NameIsOwn(after.prices, id))
      && (id in st.prices && st.prices[id] == price && NameIsOwn(st.prices, id) ==>
            after == st && r != Err(Permanent(PriceNameTaken)) && (f.Delivered? ==> r.Ok?))
      && (r == Err(Permanent(PriceNameTaken)) ==>
            after == st || (id in after.prices && after.prices[id] == price && NameIsOwn(after.prices, id)))
      && (id in st.prices && st.prices[id].name != "" ==> id in after.prices && after.prices[id].name == st.prices[id].name)
      && (f.Delivered? && !(id in st.prices && st.prices[id].name != "" && st.prices[id].name != price.name) ==>
            if NameTaken(st.prices, id, price.name) then after == st && r == Err(Permanent(PriceNameTaken)) else r.Ok?)
      && (f.Delivered? && id in st.prices && st.prices[id].name != "" && st.prices[id].name != price.name ==>
            after == st && r == Err(Permanent(PriceNameTaken)))
  {
    var once := ServePostPrice(st, id, price).0;
    if once != st {
      assert once.prices == st.prices[id := price];
      assert NameIsOwn(once.prices, id);
      assert forall k | k in once.prices && k != id :: once.prices[k].name != price.name;
      assert once.prices[id := price] == once.prices;
      assert ServePostPrice(once, id, price).0 == once;
    }
    if id in st.prices && st.prices[id] == price {
      assert st.prices[id := price] == st.prices;
    }
  }

  method EnsureProductItemPrice(s: AmberfloServer, id: string, want: Price) returns (r: Result<()>)
    requires id != "" && want.name != ""
    modifies s`tick, s`state
    ensures s.tick > old(s.tick)
    ensures s.state == old(s.state).(prices := s.state.prices)
    ensures PriceEdit(old(s.state.prices), s.state.prices, id)
    ensures r.Ok? ==> PriceSettled(s.state.prices, id, want)
    // A stored name is never changed.
    ensures id in old(s.state.prices) && old(s.state.prices)[id].name != "" ==>
              id in s.state.prices && s.state.prices[id].name == old(s.state.prices)[id].name
    // Exactly when a failure-free call succeeds, and under which name.
    ensures old(s.FailureFree()) ==> (r.Ok? <==> EnsuredPrice(old(s.state.prices), id, want).Some?)
    ensures old(s.FailureFree()) && r.Ok? ==> EnsuredPrice(old(s.state.prices), id, want) == Some(s.state.prices)
    // Whatever goes wrong, a settled price is left alone.
    ensures PriceSettled(old(s.state.prices), id, want) ==> s.state == old(s.state)
  {
    var answer := s.Read();
    if answer.Err? {
      return Err(answer.error);
    }
    var price := want;
    if id in s.state.prices {
      var existing := s.state.prices[id];
      if existing.item == want.item && PriceNameAcceptable(existing.name, want.name, id)
         && existing.machine == want.machine {
        return Ok(());
      }
      if existing.name != "" {
        price := price.(name := existing.name);
      }
    }
    PostPriceEffect(s.faults(s.tick), s.state, id, price);
    r := s.PostPrice(id, price);
    if r == Err(Permanent(PriceNameTaken)) {
      var renamed := price.(name := DisambiguatedLabel(price.name, id));
      PostPriceEffect(s.faults(s.tick), s.state, id, renamed);
      r := s.PostPrice(id, renamed);
    }
  }

  lemma EnsuredPriceSettles(prices: Prices, id: string, want: Price)
    ensures EnsuredPrice(prices, id, want).Some? ==>
              PriceEdit(prices, EnsuredPrice(prices, id, want).value, id)
              && PriceSettled(EnsuredPrice(prices, id, want).value, id, want)
    ensures PriceSettled(prices, id, want) ==> EnsuredPrice(prices, id, want) == Some(prices)
  {
    if PriceSettled(prices, id, want) && !PriceAsWanted(prices, id, want) {
      assert want.(name := WrittenName(prices, id, want.name)) == prices[id];
      assert prices[id := prices[id]] == prices;
    }
  }

  // ---- one usage item -----------------------------------------------------

  function ItemName(item: PlanItem): string { FirstNonEmpty(item.title, item.meter) }

  /** The generator's item exists and points at the wanted meter, and its price is stored for that
      same item with the compiled machine. */
  predicate Placed(st: State, d: DesiredPlan, item: PlanItem, g: PriceGenerator) {
    && PointsAt(st.items, g.item, item.meter)
    && MachineOf(item.rates).Some? && g == WantGenerator(d, item, g.item, MachineOf(item.rates).value)
    && g.priceId in st.prices && st.prices[g.priceId].item == g.item
    && st.prices[g.priceId].machine == MachineOf(item.rates).value
  }

  ghost predicate UseSettled(st: State, d: DesiredPlan, item: PlanItem, g: PriceGenerator) {
    && ItemSettled(st.items, item.meter, g.item)
    && MachineOf(item.rates).Some? && g == WantGenerator(d, item, g.item, MachineOf(item.rates).value)
    && PriceSettled(st.prices, g.priceId, WantPrice(d, item, g.item, MachineOf(item.rates).value))
  }

  datatype Used = Used(state: State, g: PriceGenerator)

  /** The account and the generator a failure-free call ends with; None if it fails. */
  ghost function EnsuredUse(st: State, d: DesiredPlan, item: PlanItem): Option<Used> {
    if item.meter == "" then None
    else
      var got, machine := EnsuredItem(st, WantItem(d, item)), MachineOf(item.rates);
      if got.None? || machine.None? then None
      else
        var pid := got.value.id;
        var prices := EnsuredPrice(st.prices, PriceId(d.id, item.id), WantPrice(d, item, pid, machine.value));
        if prices.None? then None
        else Some(Used(st.(items := got.value.items, prices := prices.value), WantGenerator(d, item, pid, machine.value)))
  }

  method EnsureUsageItem(s: AmberfloServer, d: DesiredPlan, item: PlanItem) returns (r: Result<PriceGenerator>)
    requires d.id != "" && item.id != ""
    modifies s`tick, s`state
    ensures s.tick >= old(s.tick)
    ensures s.state == old(s.state).(items := s.state.items, prices := s.state.prices)
    ensures ItemEdit(old(s.state), s.state.items, item.meter, ItemName(item), s.NoneRefused(old(s.tick), s.tick))
    ensures PriceEdit(old(s.state.prices), s.state.prices, PriceId(d.id, item.id))
    ensures r.Ok? ==> item.meter != "" && Placed(s.state, d, item, r.value)
    ensures r.Ok? && s.Steady(old(s.tick), s.tick) ==> UseSettled(s.state, d, item, r.value)
    // Whatever goes wrong, what is settled is left alone.
    ensures forall id | ItemSettled(old(s.state.items), item.meter, id) :: s.state.items == old(s.state.items)
    ensures forall g | UseSettled(old(s.state), d, item, g) :: s.state == old(s.state) && (r.Ok? ==> r.value == g)
    // Exactly when a failure-free call succeeds, and with what.
    ensures old(s.FailureFree()) ==> (r.Ok? <==> EnsuredUse(old(s.state), d, item).Some?)
    ensures old(s.FailureFree()) && r.Ok? ==> EnsuredUse(old(s.state), d, item) == Some(Used(s.state, r.value))
  {
    hide ItemEdit, ItemSettled, PriceSettled, PriceEdit, DisambiguatedLabel, EnsuredItem, EnsuredPrice;
    ghost var start := s.state;
    NothingIsEdit(start, item.meter, ItemName(item), true);
    NothingIsEdit(start, item.meter, ItemName(item), false);
    NoPriceEdit(start.prices, PriceId(d.id, item.id));
    if item.meter == "" {
      return Err(Permanent(BadRequest));
    }
    var pid := EnsureProductItem(s, WantItem(d, item));
    ghost var guarded := s.NoneRefused(old(s.tick), s.tick);
    if pid.Err? {
      return Err(pid.error);
    }
    var price := BuildWirePrice(item.rates);
    if price.None? {
      return Err(Permanent(BadRequest));
    }
    var priced := EnsureProductItemPrice(s, PriceId(d.id, item.id), WantPrice(d, item, pid.value, price.value));
    LooserEdit(start, s.state.items, item.meter, ItemName(item), guarded, s.NoneRefused(old(s.tick), s.tick));
    if priced.Err? {
      return Err(priced.error);
    }
    SettledPrice(s.state.prices, PriceId(d.id, item.id), WantPrice(d, item, pid.value, price.value));
    var pricing := PriceGeneratorFromMachine(price.value);
    return Ok(PriceGenerator(pid.value, PriceId(d.id, item.id), PriceName(d, item), pricing));
  }

  lemma NoPriceEdit(prices: Prices, id: string)
    ensures PriceEdit(prices, prices, id)
  {
  }

  lemma SettledPrice(prices: Prices, id: string, want: Price)
    requires PriceSettled(prices, id, want)
    ensures id in prices && prices[id].item == want.item && prices[id].machine == want.machine
  {
  }

  // ---- what one item's edits leave of the others --------------------------

  predicate Live(st: State, meter: string) { LiveForeign(st, meter, "") }

  /** A desired meter's own id is free, or taken by its own item, or by one that no other desired
      usage item could be handed. */
  predicate Reserved(items: Items, us: seq<PlanItem>) {
    forall a, b | 0 <= a < |us| && 0 <= b < |us| && us[a].meter in items :: OwnId(items, us[a].meter, us[b])
  }

  predicate OwnId(items: Items, meter: string, other: PlanItem)
    requires meter in items
  {
    || items[meter].meter == meter
    || (items[meter].meter != other.meter && (other.meter != meter ==> items[meter].name != ItemName(other)))
  }

  predicate DistinctIds(us: seq<PlanItem>) {
    forall a, b | 0 <= a < b < |us| :: us[a].id != us[b].id
  }

  /** Every desired meter is live, and nothing stored can be mistaken for another one's item. */
  predicate PlanClear(st: State, us: seq<PlanItem>) {
    && (forall a | 0 <= a < |us| :: Live(st, us[a].meter))
    && Reserved(st.items, us) && DistinctIds(us)
  }

  ghost predicate UseEdit(before: State, after: State, d: DesiredPlan, item: PlanItem) {
    && after == before.(items := after.items, prices := after.prices)
    && ItemEdit(before, after.items, item.meter, ItemName(item), true)
    && PriceEdit(before.prices, after.prices, PriceId(d.id, item.id))
  }

  /** What is under a desired meter's own id stays as it is, unless the edit is for that meter. */
  lemma OwnIdKept(before: State, after: State, d: DesiredPlan, us: seq<PlanItem>, j: nat, a: nat)
    requires j < |us| && a < |us| && PlanClear(before, us) && UseEdit(before, after, d, us[j])
    ensures us[a].meter != us[j].meter && us[a].meter in after.items ==>
              us[a].meter in before.items && after.items[us[a].meter] == before.items[us[a].meter]
  {
  }

  lemma ClearKept(before: State, after: State, d: DesiredPlan, us: seq<PlanItem>, j: nat)
    requires j < |us| && PlanClear(before, us) && UseEdit(before, after, d, us[j])
    ensures PlanClear(after, us)
  {
  }

  /** An item that points at another desired meter is not touched. */
  lemma PointedKept(before: State, after: State, d: DesiredPlan, us: seq<PlanItem>, j: nat, k: nat, i: string)
    requires j < |us| && k < |us| && PlanClear(before, us) && UseEdit(before, after, d, us[j])
    requires us[k].meter != us[j].meter
    ensures PointsAt(before.items, i, us[k].meter) ==> i in after.items && after.items[i] == before.items[i]
    ensures PointsAt(after.items, i, us[k].meter) ==> PointsAt(before.items, i, us[k].meter)
  {
  }

  lemma PriceIdsDiffer(planId: string, a: string, b: string)
    requires a != b
    ensures PriceId(planId, a) != PriceId(planId, b)
  {
    var n := |planId + "--"|;
    assert PriceId(planId, a)[n..] == a;
    assert PriceId(planId, b)[n..] == b;
  }

  lemma PlacedKept(before: State, after: State, d: DesiredPlan, us: seq<PlanItem>, j: nat, k: nat, g: PriceGenerator)
    requires j < |us| && k < |us| && j != k && PlanClear(before, us) && UseEdit(before, after, d, us[j])
    requires Placed(before, d, us[k], g)
    ensures Placed(after, d, us[k], g)
  {
    PriceIdsDiffer(d.id, us[j].id, us[k].id);
    if us[k].meter != us[j].meter {
      PointedKept(before, after, d, us, j, k, g.item);
    }
  }

  lemma SettledKept(before: State, after: State, d: DesiredPlan, us: seq<PlanItem>, j: nat, k: nat, g: PriceGenerator)
    requires j < |us| && k < |us| && j != k && PlanClear(before, us) && UseEdit(before, after, d, us[j])
    requires UseSettled(before, d, us[k], g)
    requires us[k].meter == us[j].meter ==> after.items == before.items
    ensures UseSettled(after, d, us[k], g)
  {
    PriceIdsDiffer(d.id, us[j].id, us[k].id);
    if us[k].meter != us[j].meter {
      forall i
        ensures PointsAt(before.items, i, us[k].meter) ==> i in after.items && after.items[i] == before.items[i]
        ensures PointsAt(after.items, i, us[k].meter) ==> PointsAt(before.items, i, us[k].meter)
      {
        PointedKept(before, after, d, us, j, k, i);
      }
      OwnIdKept(before, after, d, us, j, k);
    }
  }

  // ---- the whole plan -----------------------------------------------------

  function WantPlan(d: DesiredPlan, gs: seq<PriceGenerator>, isDefault: Option<bool>): Plan {
    Plan(d.name, d.product, d.description, d.currency, CUSTOM_PLAN, CloseToChanges, PriceMap(gs), FeesOf(d.items),
         Some(PlanGenerator(CUSTOM_PLAN, d.name, d.description, gs, FeesOf(d.items))), isDefault)
  }

  ghost predicate AllPlaced(st: State, d: DesiredPlan, gs: seq<PriceGenerator>) {
    |gs| <= |Usages(d.items)| && forall t | 0 <= t < |gs| :: Placed(st, d, Usages(d.items)[t], gs[t])
  }

  ghost predicate AllSettled(st: State, d: DesiredPlan, gs: seq<PriceGenerator>) {
    |gs| <= |Usages(d.items)| && forall t | 0 <= t < |gs| :: UseSettled(st, d, Usages(d.items)[t], gs[t])
  }

  predicate PlanStored(st: State, d: DesiredPlan, gs: seq<PriceGenerator>) {
    && |gs| == |Usages(d.items)| && d.id in st.plans
    && !ProductPlanNeedsUpdate(st.plans[d.id], WantPlan(d, gs, None))
  }

  datatype Uses = Uses(state: State, gs: seq<PriceGenerator>)

  /** The account and the generators a failure-free pass over usage items ends with; None if it fails. */
  ghost function EnsuredUses(st: State, d: DesiredPlan, us: seq<PlanItem>): Option<Uses> {
    if us == [] then Some(Uses(st, []))
    else
      var front := EnsuredUses(st, d, us[..|us| - 1]);
      if front.None? then None
      else
        var last := EnsuredUse(front.value.state, d, us[|us| - 1]);
        if last.None? then None else Some(Uses(last.value.state, front.value.gs + [last.value.g]))
  }

  /** One more item, and what a failure at it means for the whole pass. */
  lemma {:induction false} EnsuredNext(st: State, d: DesiredPlan, us: seq<PlanItem>, k: nat)
    requires k < |us|
    ensures var front, next := EnsuredUses(st, d, us[..k]), EnsuredUses(st, d, us[..k + 1]);
      && (front.None? ==> EnsuredUses(st, d, us).None?)
      && (front.Some? && EnsuredUse(front.value.state, d, us[k]).None? ==> EnsuredUses(st, d, us).None?)
      && (front.Some? && EnsuredUse(front.value.state, d, us[k]).Some? ==>
            var last := EnsuredUse(front.value.state, d, us[k]).value;
            next == Some(Uses(last.state, front.value.gs + [last.g])))
    decreases |us| - k
  {
    hide EnsuredUse;
    var front := us[..k + 1];
    assert front[..k] == us[..k];
    assert EnsuredUses(st, d, us[..k]).None? || EnsuredUse(EnsuredUses(st, d, us[..k]).value.state, d, us[k]).None? ==>
      EnsuredUses(st, d, front).None?;
    if k + 1 < |us| {
      EnsuredNext(st, d, us, k + 1);
    } else {
      assert front == us;
    }
  }

  ghost predicate PlanSound(st: State, d: DesiredPlan) {
    exists gs :: PlanStored(st, d, gs) && AllPlaced(st, d, gs)
  }

  ghost predicate PlanSettled(st: State, d: DesiredPlan, gs: seq<PriceGenerator>) {
    && PlanStored(st, d, gs) && |gs| == |Usages(d.items)| && AllSettled(st, d, gs)
    && d.id != "" && AllAcceptable(d.items)
  }

  lemma {:induction false} UsagesPrefix(items: seq<PlanItem>, i: nat)
    requires i <= |items|
    ensures Usages(items[..i]) <= Usages(items)
    ensures i < |items| ==>
              Usages(items[..i + 1]) == Usages(items[..i]) + (if items[i].charge.Usage? then [items[i]] else [])
    ensures i < |items| && items[i].charge.Usage? ==>
              |Usages(items[..i])| < |Usages(items)| && Usages(items)[|Usages(items[..i])|] == items[i]
    ensures i < |items| ==> FeesOf(items[..i + 1]) == FeesStep(FeesOf(items[..i]), items[i])
    decreases |items| - i
  {
    if i < |items| {
      assert items[..i + 1][..i] == items[..i];
      UsagesPrefix(items, i + 1);
    } else {
      assert items[..i] == items;
    }
  }

  /** One pass of the loop over the items keeps what is placed and settled so far. */
  lemma ItemsLoopStep(before: State, after: State, d: DesiredPlan, j: nat, gs: seq<PriceGenerator>)
    requires j < |Usages(d.items)| && |gs| <= j && PlanClear(before, Usages(d.items))
    requires UseEdit(before, after, d, Usages(d.items)[j])
    ensures PlanClear(after, Usages(d.items))
    ensures AllPlaced(before, d, gs) ==> AllPlaced(after, d, gs)
    ensures AllSettled(before, d, gs)
            && (after.items == before.items
                || forall g | g in gs :: !ItemSettled(before.items, Usages(d.items)[j].meter, g.item))
            ==> AllSettled(after, d, gs)
  {
    var us := Usages(d.items);
    ClearKept(before, after, d, us, j);
    if AllPlaced(before, d, gs) {
      forall t | 0 <= t < |gs| ensures Placed(after, d, us[t], gs[t]) {
        PlacedKept(before, after, d, us, j, t, gs[t]);
      }
    }
    if AllSettled(before, d, gs)
       && (after.items == before.items || forall g | g in gs :: !ItemSettled(before.items, us[j].meter, g.item)) {
      forall t | 0 <= t < |gs| ensures UseSettled(after, d, us[t], gs[t]) {
        assert UseSettled(before, d, us[t], gs[t]);
        assert gs[t] in gs;
        SettledKept(before, after, d, us, j, t, gs[t]);
      }
    }
  }

  /** Items that no part of the plan may touch: not stored under a desired meter's id, and serving a
      live meter that is not desired. */
  ghost predicate OthersItem(st: State, us: seq<PlanItem>, i: string) {
    i in st.items && forall a | 0 <= a < |us| :: i != us[a].meter && LiveForeign(st, st.items[i].meter, us[a].meter)
  }

  ghost predicate OthersKept(before: State, after: State, us: seq<PlanItem>) {
    forall i | OthersItem(before, us, i) :: i in after.items && after.items[i] == before.items[i]
  }

  /** Where the loop over the items stands: gs are the generators of the first |gs| usage items. */
  ghost predicate Progress(start: State, st: State, d: DesiredPlan, gs: seq<PriceGenerator>, unrefused: bool,
                           steady: bool) {
    var us := Usages(d.items);
    && st == start.(items := st.items, prices := st.prices) && |gs| <= |us|
    && (unrefused ==> OthersKept(start, st, us))
    && (PlanClear(start, us) && unrefused ==> PlanClear(st, us) && AllPlaced(st, d, gs))
    && (PlanClear(start, us) && steady ==> AllSettled(st, d, gs))
  }

  lemma ProgressStart(st: State, d: DesiredPlan)
    ensures forall b, c :: Progress(st, st, d, [], b, c)
  {
  }

  /** Progress weakens as more requests are sent, and a failed item changes nobody else's either. */
  lemma ProgressFailed(start: State, before: State, after: State, d: DesiredPlan, gs: seq<PriceGenerator>, was: bool,
                       now: bool, steady: bool)
    requires |gs| < |Usages(d.items)| && Progress(start, before, d, gs, was, steady) && (now ==> was)
    requires now ==> UseEdit(before, after, d, Usages(d.items)[|gs|])
    ensures now ==> OthersKept(start, after, Usages(d.items))
  {
  }

  lemma ProgressStep(start: State, before: State, after: State, d: DesiredPlan, gs: seq<PriceGenerator>,
                     g: PriceGenerator,
                     was: bool, now: bool, wasSteady: bool, steady: bool)
    requires |gs| < |Usages(d.items)| && Progress(start, before, d, gs, was, wasSteady)
    requires (now ==> was) && (steady ==> wasSteady && now)
    requires after == before.(items := after.items, prices := after.prices)
    requires now ==> UseEdit(before, after, d, Usages(d.items)[|gs|])
    requires Placed(after, d, Usages(d.items)[|gs|], g)
    requires steady ==> UseSettled(after, d, Usages(d.items)[|gs|], g)
    requires steady ==>
               forall id | ItemSettled(before.items, Usages(d.items)[|gs|].meter, id) :: after.items == before.items
    ensures Progress(start, after, d, gs + [g], now, steady)
  {
    hide Placed, UseSettled, ItemSettled, UseEdit, OthersKept, PlanClear;
    ProgressFailed(start, before, after, d, gs, was, now, wasSteady);
    var us, j := Usages(d.items), |gs|;
    if PlanClear(start, us) && now {
      ItemsLoopStep(before, after, d, j, gs);
    }
  }

  /** One usage item, seen from the loop that started in state `start` at request `from`. */
  method EnsureNextUsage(s: AmberfloServer, d: DesiredPlan, item: PlanItem, ghost start: State, ghost from: nat,
                         ghost gs: seq<PriceGenerator>)
      returns (r: Result<PriceGenerator>)
    requires d.id != "" && item.id != "" && from <= s.tick
    requires |gs| < |Usages(d.items)| && Usages(d.items)[|gs|] == item && item.charge.Usage?
    requires Progress(start, s.state, d, gs, s.NoneRefused(from, s.tick), s.Steady(from, s.tick))
    modifies s`tick, s`state
    ensures s.tick >= old(s.tick)
    ensures s.state == old(s.state).(items := s.state.items, prices := s.state.prices)
    ensures s.NoneRefused(from, s.tick) ==> OthersKept(start, s.state, Usages(d.items))
    ensures r.Ok? ==>
              Acceptable(item)
              && Progress(start, s.state, d, gs + [r.value], s.NoneRefused(from, s.tick), s.Steady(from, s.tick))
    ensures forall g | UseSettled(old(s.state), d, item, g) :: s.state == old(s.state) && (r.Ok? ==> r.value == g)
    ensures old(s.FailureFree()) ==> (r.Ok? <==> EnsuredUse(old(s.state), d, item).Some?)
    ensures old(s.FailureFree()) && r.Ok? ==> EnsuredUse(old(s.state), d, item) == Some(Used(s.state, r.value))
  {
    hide UseSettled, ItemEdit, PriceEdit, ItemSettled, OthersKept, LiveForeign, Progress, EnsuredUse;
    ghost var before, was, wasSteady := s.state, s.NoneRefused(from, s.tick), s.Steady(from, s.tick);
    r := EnsureUsageItem(s, d, item);
    ghost var now, steady := s.NoneRefused(from, s.tick), s.Steady(from, s.tick);
    ProgressFailed(start, before, s.state, d, gs, was, now, wasSteady);
    if r.Ok? {
      ProgressStep(start, before, s.state, d, gs, r.value, was, now, wasSteady, steady);
    }
  }

  lemma {:induction false} NothingYet(st: State, d: DesiredPlan)
    ensures Usages([]) == [] && FeesOf([]) == map[] && PriceMap([]) == map[]
    ensures EnsuredUses(st, d, []) == Some(Uses(st, []))
  {
  }

  lemma KnownLength(st: State, d: DesiredPlan, known: seq<PriceGenerator>)
    requires PlanSettled(st, d, known)
    ensures |known| == |Usages(d.items)|
  {
  }

  lemma KnownNext(st: State, d: DesiredPlan, known: seq<PriceGenerator>, i: nat)
    requires PlanSettled(st, d, known) && i < |d.items|
    ensures Acceptable(d.items[i])
    ensures d.items[i].charge.Usage? ==>
              |Usages(d.items[..i])| < |known| && UseSettled(st, d, d.items[i], known[|Usages(d.items[..i])|])
  {
    hide UseSettled;
    UsagesPrefix(d.items, i);
    assert d.items[i] in d.items;
  }

  /** The loop over the plan's items. `known` are the generators of a plan that is settled, if it is. */
  method EnsurePlanItems(s: AmberfloServer, d: DesiredPlan, ghost known: seq<PriceGenerator>)
      returns (r: Result<()>, gs: seq<PriceGenerator>, priceIds: map<string, string>, fees: map<string, Fee>)
    requires d.id != ""
    modifies s`tick, s`state
    ensures s.tick >= old(s.tick)
    ensures s.state == old(s.state).(items := s.state.items, prices := s.state.prices)
    ensures s.NoneRefused(old(s.tick), s.tick) ==> OthersKept(old(s.state), s.state, Usages(d.items))
    ensures r.Ok? ==>
              && priceIds == PriceMap(gs) && fees == FeesOf(d.items) && |gs| == |Usages(d.items)|
              && AllAcceptable(d.items)
              && Progress(old(s.state), s.state, d, gs, s.NoneRefused(old(s.tick), s.tick), s.Steady(old(s.tick), s.tick))
    ensures PlanSettled(old(s.state), d, known) ==> s.state == old(s.state) && (r.Ok? ==> gs == known)
    // Exactly when a failure-free loop succeeds, and with what.
    ensures old(s.FailureFree()) ==>
              (r.Ok? <==> AllAcceptable(d.items) && EnsuredUses(old(s.state), d, Usages(d.items)).Some?)
    ensures old(s.FailureFree()) && r.Ok? ==>
              EnsuredUses(old(s.state), d, Usages(d.items)) == Some(Uses(s.state, gs))
  {
    hide UseSettled, OthersKept, Progress, Usages, FeesOf, PriceMap, PlanSettled, MachineOf, FirstNonEmpty, EnsuredUse;
    hide EnsuredUses;
    ghost var start, us := s.state, Usages(d.items);
    ghost var quiet, free := PlanSettled(start, d, known), s.FailureFree();
    priceIds, fees, gs := map[], map[], [];
    var i := 0;
    ProgressStart(start, d);
    SameOthers(start, us);
    NothingYet(start, d);
    assert us[..0] == [];
    if quiet {
      KnownLength(start, d, known);
    }
    assert d.items[..0] == [];
    while i < |d.items|
      invariant 0 <= i <= |d.items| && s.tick >= old(s.tick)
      invariant s.state == start.(items := s.state.items, prices := s.state.prices)
      invariant |gs| == |Usages(d.items[..i])| && Usages(d.items[..i]) <= us
      invariant priceIds == PriceMap(gs) && fees == FeesOf(d.items[..i])
      invariant forall k | 0 <= k < i :: Acceptable(d.items[k])
      invariant Progress(start, s.state, d, gs, s.NoneRefused(old(s.tick), s.tick), s.Steady(old(s.tick), s.tick))
      invariant s.NoneRefused(old(s.tick), s.tick) ==> OthersKept(start, s.state, us)
      invariant quiet ==> s.state == start && |gs| <= |known| && gs == known[..|gs|]
      invariant free ==> s.FailureFree() && EnsuredUses(start, d, us[..|gs|]) == Some(Uses(s.state, gs))
    {
      var item := d.items[i];
      UsagesPrefix(d.items, i);
      UsagesPrefix(d.items, i + 1);
      if quiet {
        KnownNext(start, d, known, i);
      }
      assert item in d.items;
      if item.id == "" {
        assert !Acceptable(item);
        return Err(Permanent(BadRequest)), gs, priceIds, fees;
      }
      match item.charge {
        case Usage =>
          EnsuredNext(start, d, us, |gs|);
          var g := EnsureNextUsage(s, d, item, start, old(s.tick), gs);
          if g.Err? {
            return Err(g.error), gs, priceIds, fees;
          }
          PriceMapStep(gs, g.value);
          priceIds := priceIds[g.value.item := g.value.priceId];
          gs := gs + [g.value];
        case OneTime =>
          fees := fees[item.id := Fee(FirstNonEmpty(item.title, item.id), item.amount, true)];
        case Recurring =>
          fees := fees[item.id := Fee(FirstNonEmpty(item.title, item.id), item.amount, false)];
        case Unsupported =>
          assert !Acceptable(item);
          return Err(Permanent(BadRequest)), gs, priceIds, fees;
      }
      i := i + 1;
    }
    assert d.items[..i] == d.items;
    assert us[..|gs|] == us;
    return Ok(()), gs, priceIds, fees;
  }

  lemma {:induction false} PriceMapStep(gs: seq<PriceGenerator>, g: PriceGenerator)
    ensures PriceMap(gs + [g]) == PriceMap(gs)[g.item := g.priceId]
  {
  }

  lemma SamePlans(plans: Plans, id: string)
    ensures OtherPlansKept(plans, plans, id)
  {
  }

  lemma SameOthers(st: State, us: seq<PlanItem>)
    ensures OthersKept(st, st, us)
  {
  }

  lemma PostPlanEffect(f: Fault, st: State, id: string, plan: Plan)
    requires id != ""
    ensures var (after, r) := SettlePostPlan(f, st, id, plan);
      && (after == st || (plan.priceIds.Keys <= st.items.Keys && after == st.(plans := st.plans[id := plan])))
      && (r.Ok? ==> id in after.plans && after.plans[id] == plan)
      && (f.Delivered? && plan.priceIds.Keys <= st.items.Keys ==> r.Ok?)
      && r != Err(Permanent(NoSuchEntity))
  {
  }

  /** What the stored plan is compared against does not depend on the default flag it echoes. */
  lemma FreshPlanStored(d: DesiredPlan, gs: seq<PriceGenerator>, isDefault: Option<bool>)
    ensures !ProductPlanNeedsUpdate(WantPlan(d, gs, isDefault), WantPlan(d, gs, None))
    ensures forall p ::
              ProductPlanNeedsUpdate(p, WantPlan(d, gs, isDefault)) <==> ProductPlanNeedsUpdate(p, WantPlan(d, gs, None))
  {
  }

  predicate OtherPlansKept(before: Plans, after: Plans, id: string) {
    && before.Keys <= after.Keys <= before.Keys + {id}
    && forall k | k in before && k != id :: after[k] == before[k]
  }

  /** The stored plan is compared with the wanted one, and posted if it differs. */
  method StorePlan(s: AmberfloServer, d: DesiredPlan, gs: seq<PriceGenerator>, priceIds: map<string, string>,
                   fees: map<string, Fee>)
      returns (r: Result<()>)
    requires d.id != "" && priceIds == PriceMap(gs) && fees == FeesOf(d.items) && |gs| == |Usages(d.items)|
    modifies s`tick, s`state, s`planPosts
    ensures s.tick >= old(s.tick)
    ensures s.state == old(s.state).(plans := s.state.plans)
    ensures OtherPlansKept(old(s.state.plans), s.state.plans, d.id)
    ensures r.Ok? ==> PlanStored(s.state, d, gs)
    // The account's default plan stays the default plan.
    ensures d.id in old(s.state.plans) ==>
              d.id in s.state.plans && s.state.plans[d.id].isDefault == old(s.state.plans)[d.id].isDefault
    ensures PlanStored(old(s.state), d, gs) ==> s.state == old(s.state) && s.planPosts == old(s.planPosts)
    // A failure-free call succeeds exactly when the plan is there, or its items are.
    ensures old(s.FailureFree()) ==>
              (r.Ok? <==> PlanStored(old(s.state), d, gs) || PriceMap(gs).Keys <= old(s.state.items).Keys)
  {
    var want := Plan(d.name, d.product, d.description, d.currency, CUSTOM_PLAN, CloseToChanges, priceIds, fees,
                     Some(PlanGenerator(CUSTOM_PLAN, d.name, d.description, gs, fees)), None);
    assert want == WantPlan(d, gs, None);
    hide WantPlan, ServePostPlan, FeesOf, PriceMap, Usages;
    var answer := s.Read();
    if answer.Err? {
      return Err(answer.error);
    }
    if d.id in s.state.plans {
      var existing := s.state.plans[d.id];
      want := want.(isDefault := existing.isDefault);
      assert want == WantPlan(d, gs, existing.isDefault) by { WantPlanDefault(d, gs, existing.isDefault); }
      FreshPlanStored(d, gs, existing.isDefault);
      if !ProductPlanNeedsUpdate(existing, want) {
        return Ok(());
      }
    }
    FreshPlanStored(d, gs, None);
    PostPlanEffect(s.faults(s.tick), s.state, d.id, want);
    r := s.PostPlan(d.id, want);
  }

  lemma {:induction false} StoredPriceIds(st: State, d: DesiredPlan, gs: seq<PriceGenerator>)
    requires PlanStored(st, d, gs)
    ensures d.id in st.plans && st.plans[d.id].priceIds == PriceMap(gs) && |gs| == |Usages(d.items)|
  {
    hide PlanGeneratorsEqual, PriceMap, Usages, FeesOf;
  }

  lemma WantPlanDefault(d: DesiredPlan, gs: seq<PriceGenerator>, isDefault: Option<bool>)
    ensures WantPlan(d, gs, None).(isDefault := isDefault) == WantPlan(d, gs, isDefault)
  {
  }

  lemma OthersKeptThrough(start: State, middle: State, after: State, us: seq<PlanItem>)
    requires middle.items == after.items
    ensures OthersKept(start, middle, us) ==> OthersKept(start, after, us)
  {
  }

  lemma StoredSound(start: State, middle: State, after: State, d: DesiredPlan, gs: seq<PriceGenerator>,
                    unrefused: bool, steady: bool)
    requires Progress(start, middle, d, gs, unrefused, steady) && PlanClear(start, Usages(d.items))
    requires after == middle.(plans := after.plans) && PlanStored(after, d, gs)
    ensures unrefused ==> PlanSound(after, d)
    ensures steady && d.id != "" && AllAcceptable(d.items) ==> PlanSettled(after, d, gs)
  {
  }

  // ---- what a failure-free pass comes to ----------------------------------

  lemma EnsuredUseSettles(before: State, d: DesiredPlan, item: PlanItem)
    requires EnsuredUse(before, d, item).Some?
    ensures var used := EnsuredUse(before, d, item).value;
      && UseEdit(before, used.state, d, item) && UseSettled(used.state, d, item, used.g)
      && EnsuredItem(before, WantItem(d, item)) == Some(ItemAt(used.state.items, used.g.item))
      && before.items.Keys <= used.state.items.Keys && used.g.item in used.state.items
  {
    hide ItemEdit, ItemSettled, PriceSettled, PriceEdit, DisambiguatedLabel, EnsuredItem, EnsuredPrice;
    var want := WantItem(d, item);
    var got, machine := EnsuredItem(before, want).value, MachineOf(item.rates).value;
    EnsuredItemSettles(before, want);
    assert before.items.Keys <= got.items.Keys by { EditGrows(before, got.items, want.id, want.item.name); }
    EnsuredPriceSettles(before.prices, PriceId(d.id, item.id), WantPrice(d, item, got.id, machine));
  }

  lemma EditGrows(before: State, after: Items, meter: string, name: string)
    requires ItemEdit(before, after, meter, name, true)
    ensures before.items.Keys <= after.Keys
  {
  }

  /** Every item a failure-free pass priced exists in the end. */
  lemma {:induction false} EnsuredItemsExist(st: State, d: DesiredPlan, us: seq<PlanItem>)
    requires EnsuredUses(st, d, us).Some?
    ensures var e := EnsuredUses(st, d, us).value;
      && |e.gs| == |us| && st.items.Keys <= e.state.items.Keys
      && forall g | g in e.gs :: g.item in e.state.items
  {
    if us != [] {
      hide EnsuredUse, UseEdit, UseSettled;
      var front, e := EnsuredUses(st, d, us[..|us| - 1]).value, EnsuredUses(st, d, us).value;
      EnsuredItemsExist(st, d, us[..|us| - 1]);
      EnsuredUseSettles(front.state, d, us[|us| - 1]);
      forall g | g in e.gs ensures g.item in e.state.items {
        assert g in front.gs || g == EnsuredUse(front.state, d, us[|us| - 1]).value.g;
      }
    }
  }

  lemma {:induction false} PriceMapItems(gs: seq<PriceGenerator>, items: Items)
    requires forall g | g in gs :: g.item in items
    ensures PriceMap(gs).Keys <= items.Keys
  {
    forall k | k in PriceMap(gs) ensures k in items {
      ByItemEntries(gs, k);
    }
  }

  /** When a failure-free call can succeed at all ... */
  ghost predicate PlanEnsurable(st: State, d: DesiredPlan) {
    d.id != "" && AllAcceptable(d.items) && EnsuredUses(st, d, Usages(d.items)).Some?
  }

  /** ... and what it then leaves behind. */
  ghost predicate PlanLanded(before: State, after: State, d: DesiredPlan) {
    && EnsuredUses(before, d, Usages(d.items)).Some?
    && var e := EnsuredUses(before, d, Usages(d.items)).value;
       after == e.state.(plans := after.plans) && PlanStored(after, d, e.gs)
  }

  lemma SettledUseIsEnsured(st: State, d: DesiredPlan, item: PlanItem, g: PriceGenerator)
    requires UseSettled(st, d, item, g) && item.meter != ""
    ensures EnsuredUse(st, d, item) == Some(Used(st, g))
  {
    hide ItemSettled, PriceSettled, DisambiguatedLabel, EnsuredItem, EnsuredPrice;
    var machine := MachineOf(item.rates).value;
    SettledIsEnsured(st, WantItem(d, item), g.item);
    EnsuredPriceSettles(st.prices, PriceId(d.id, item.id), WantPrice(d, item, g.item, machine));
  }

  predicate OneEach(us: seq<PlanItem>, gs: seq<PriceGenerator>) {
    |gs| == |us| && forall t | 0 <= t < |us| :: us[t].meter != ""
  }

  lemma {:induction false} SettledUsesAreEnsured(st: State, d: DesiredPlan, us: seq<PlanItem>, gs: seq<PriceGenerator>)
    requires OneEach(us, gs) && forall t | 0 <= t < |us| :: UseSettled(st, d, us[t], gs[t])
    ensures EnsuredUses(st, d, us) == Some(Uses(st, gs))
  {
    hide UseSettled, EnsuredUse;
    if us == [] {
      assert gs == [];
    } else {
      var n := |us| - 1;
      forall t | 0 <= t < n ensures UseSettled(st, d, us[..n][t], gs[..n][t]) {
        assert us[..n][t] == us[t] && gs[..n][t] == gs[t];
      }
      SettledUsesAreEnsured(st, d, us[..n], gs[..n]);
      SettledUseIsEnsured(st, d, us[n], gs[n]);
      assert gs[..n] + [gs[n]] == gs;
    }
  }

  lemma SettledIsEnsurable(st: State, d: DesiredPlan, gs: seq<PriceGenerator>)
    requires PlanSettled(st, d, gs)
    ensures PlanEnsurable(st, d) && PlanStored(st, d, gs)
  {
    hide UseSettled, PlanStored, MachineOf, FeesOf, EnsuredUses;
    var us := Usages(d.items);
    forall t | 0 <= t < |us| ensures us[t].meter != "" {
      UsagesMember(d.items, t);
    }
    SettledUsesAreEnsured(st, d, us, gs);
  }

  lemma {:induction false} UsagesMember(items: seq<PlanItem>, t: nat)
    requires t < |Usages(items)|
    ensures Usages(items)[t] in items && Usages(items)[t].charge.Usage?
  {
    var n := |items| - 1;
    if t < |Usages(items[..n])| {
      UsagesMember(items[..n], t);
    }
  }

  // ---- when a first call succeeds -----------------------------------------

  /** The names a usage item's product item, and its price, may be stored under. */
  function ItemNames(item: PlanItem): set<string> {
    {ItemName(item), DisambiguatedLabel(ItemName(item), item.meter)}
  }

  function PriceNames(d: DesiredPlan, item: PlanItem): set<string> {
    {PriceName(d, item), DisambiguatedLabel(PriceName(d, item), PriceId(d.id, item.id))}
  }

  /** No two usage items can come to want one name. */
  predicate NamesApart(d: DesiredPlan, us: seq<PlanItem>) {
    forall a, b | 0 <= a < |us| && 0 <= b < |us| && a != b ::
      && (us[a].meter != us[b].meter ==> ItemNames(us[a]) !! ItemNames(us[b]))
      && PriceNames(d, us[a]) !! PriceNames(d, us[b])
  }

  /** A usage item that could be ensured if it were the only one: an item can be had for its meter,
      whatever is left over, and its price may be stored. */
  ghost predicate Ensurable(st: State, d: DesiredPlan, item: PlanItem) {
    && item.charge.Usage? && Acceptable(item) && EnsuredItem(st, WantItem(d, item)).Some?
    && PriceWritable(st.prices, PriceId(d.id, item.id), PriceName(d, item))
  }

  lemma EnsuredItemNames(st: State, want: ItemRow, i: string)
    requires want.id == want.item.meter && want.id != "" && EnsuredItem(st, want).Some?
    requires i in EnsuredItem(st, want).value.items
    ensures PointsAt(st.items, want.id, want.id) ==> EnsuredItem(st, want).value.items == st.items
    ensures i in st.items && st.items[i].name != "" ==> EnsuredItem(st, want).value.items[i].name == st.items[i].name
    ensures EnsuredItem(st, want).value.items[i].name != "" && !(i in st.items && st.items[i].name != "") ==>
              EnsuredItem(st, want).value.items[i].name in {want.item.name, Renamed(want).item.name}
  {
    hide LiveForeign, DisambiguatedLabel;
  }

  /** The names another usage item could want are held by the same items, before and after. */
  lemma NamedKept(before: State, after: State, d: DesiredPlan, us: seq<PlanItem>, j: nat, k: nat, i: string)
    requires j < |us| && k < |us| && j != k && us[j].meter != us[k].meter && PlanClear(before, us) && NamesApart(d, us)
    requires UseEdit(before, after, d, us[j])
    requires EnsuredItem(before, WantItem(d, us[j])).Some?
    requires EnsuredItem(before, WantItem(d, us[j])).value.items == after.items
    ensures forall name | name in ItemNames(us[k]) ::
              i in after.items && after.items[i].name == name <==> i in before.items && before.items[i].name == name
    ensures i in before.items && before.items[i].name == ItemName(us[k]) ==>
              i in after.items && after.items[i] == before.items[i]
  {
    hide EnsuredItem, LiveForeign;
    assert Live(before, us[j].meter) && us[j].meter != "" by { LiveNamed(before, us[j].meter); }
    if i in after.items {
      EnsuredItemNames(before, WantItem(d, us[j]), i);
    }
    assert Renamed(WantItem(d, us[j])).item.name in ItemNames(us[j]);
    assert ItemName(us[j]) in ItemNames(us[j]) && ItemName(us[k]) in ItemNames(us[k]);
    assert us[k].meter != "" by { LiveNamed(before, us[k].meter); }
    assert ItemNames(us[j]) !! ItemNames(us[k]);
    assert "" !in ItemNames(us[k]);
    if us[j].meter in before.items {
      assert OwnId(before.items, us[j].meter, us[k]);
    }
  }

  lemma LiveNamed(st: State, meter: string)
    requires Live(st, meter)
    ensures meter != ""
  {
  }

  /** Item i looks the same before and after, as far as the search for the wanted item goes. */
  predicate AlikeFor(a: Items, b: Items, want: ItemRow, i: string) {
    && (i in a && (i == want.id || a[i].meter == want.id || a[i].name == want.item.name) ==> i in b && b[i] == a[i])
    && (i in b && (i == want.id || b[i].meter == want.id || b[i].name == want.item.name) ==> i in a && b[i] == a[i])
    && (i in b && b[i].name == Renamed(want).item.name ==> i in a && a[i].name == b[i].name)
  }

  lemma AlikeChoice(a: State, b: State, want: ItemRow)
    requires a.meters == b.meters && forall i :: AlikeFor(a.items, b.items, want, i)
    requires EnsuredItem(a, want).Some?
    ensures EnsuredItem(b, want).Some?
  {
    hide DisambiguatedLabel;
    var meter, name := want.id, want.item.name;
    forall i
      ensures PointsAt(a.items, i, meter) || PointsAt(b.items, i, meter) || i == meter
              || (i in a.items && a.items[i].name == name) || (i in b.items && b.items[i].name == name) ==>
                (i in a.items <==> i in b.items) && (i in a.items ==> a.items[i] == b.items[i])
      ensures i in b.items && b.items[i].name == Renamed(want).item.name ==>
                i in a.items && a.items[i].name == Renamed(want).item.name
    {
      assert AlikeFor(a.items, b.items, want, i);
    }
    assert forall i :: PointsAt(a.items, i, meter) <==> PointsAt(b.items, i, meter);
    assert HasItemFor(a.items, meter) <==> HasItemFor(b.items, meter);
    if HasPick(a.items, meter) {
      var id :| Picks(a.items, meter, id);
      assert Picks(b.items, meter, id);
    }
    assert SharedItemName(b.items, name) ==> SharedItemName(a.items, name);
    assert HasItemNamed(b.items, name) ==> HasItemNamed(a.items, name);
    assert HasItemNamed(b.items, Renamed(want).item.name) ==> HasItemNamed(a.items, Renamed(want).item.name);
    forall meter: string, wanted: string ensures LiveForeign(a, meter, wanted) <==> LiveForeign(b, meter, wanted) {
    }
  }

  /** What one usage item does leaves the others ensurable: its own meter's item is settled, and
      nothing the search for another meter's item looks at has changed. */
  lemma EnsurableKept(before: State, d: DesiredPlan, us: seq<PlanItem>, j: nat, k: nat)
    requires j < |us| && k < |us| && j != k && PlanClear(before, us) && NamesApart(d, us)
    requires EnsuredUse(before, d, us[j]).Some? && Ensurable(before, d, us[k])
    ensures Ensurable(EnsuredUse(before, d, us[j]).value.state, d, us[k])
  {
    hide EnsuredItem, LiveForeign, ItemSettled, ItemEdit, PriceName, DisambiguatedLabel;
    hide EnsuredPrice, PriceWritable, PriceSettled, PriceEdit, MachineOf, Reserved, Live;
    EnsuredUseSettles(before, d, us[j]);
    var after, g := EnsuredUse(before, d, us[j]).value.state, EnsuredUse(before, d, us[j]).value.g;
    if us[j].meter == us[k].meter {
      SettledIsEnsured(after, WantItem(d, us[k]), g.item);
    } else {
      forall i ensures AlikeFor(before.items, after.items, WantItem(d, us[k]), i) {
        NamedKept(before, after, d, us, j, k, i);
        PointedKept(before, after, d, us, j, k, i);
        OwnIdKept(before, after, d, us, j, k);
        assert ItemName(us[k]) in ItemNames(us[k]) && Renamed(WantItem(d, us[k])).item.name in ItemNames(us[k]);
      }
      AlikeChoice(before, after, WantItem(d, us[k]));
    }
    PriceIdsDiffer(d.id, us[j].id, us[k].id);
    WritableKept(before.prices, d, us[j], us[k], WantPrice(d, us[j], g.item, MachineOf(us[j].rates).value));
  }

  lemma WritableKept(prices: Prices, d: DesiredPlan, first: PlanItem, second: PlanItem, want: Price)
    requires PriceId(d.id, first.id) != PriceId(d.id, second.id) && PriceNames(d, first) !! PriceNames(d, second)
    requires want.name == PriceName(d, first) && EnsuredPrice(prices, PriceId(d.id, first.id), want).Some?
    requires PriceWritable(prices, PriceId(d.id, second.id), PriceName(d, second))
    ensures PriceWritable(EnsuredPrice(prices, PriceId(d.id, first.id), want).value, PriceId(d.id, second.id),
                          PriceName(d, second))
  {
    hide DisambiguatedLabel, PriceName, PriceId;
    var id, name := PriceId(d.id, second.id), PriceName(d, second);
    assert PriceName(d, second) in PriceNames(d, second) && DisambiguatedLabel(name, id) in PriceNames(d, second);
    assert PriceName(d, first) in PriceNames(d, first);
  }

  lemma EnsurableAlone(st: State, d: DesiredPlan, item: PlanItem)
    requires Ensurable(st, d, item)
    ensures EnsuredUse(st, d, item).Some?
  {
    hide EnsuredItem;
  }

  lemma {:induction false} FirstUsesSucceed(st: State, d: DesiredPlan, us: seq<PlanItem>, t: nat)
    requires t <= |us| && PlanClear(st, us) && NamesApart(d, us)
    requires forall k | 0 <= k < |us| :: Ensurable(st, d, us[k])
    ensures EnsuredUses(st, d, us[..t]).Some?
    ensures PlanClear(EnsuredUses(st, d, us[..t]).value.state, us)
    ensures forall k | t <= k < |us| :: Ensurable(EnsuredUses(st, d, us[..t]).value.state, d, us[k])
  {
    hide Ensurable, PlanClear, NamesApart, EnsuredUse, UseEdit, UseSettled;
    if t > 0 {
      FirstUsesSucceed(st, d, us, t - 1);
      assert us[..t][..t - 1] == us[..t - 1];
      var front := EnsuredUses(st, d, us[..t - 1]).value.state;
      EnsurableAlone(front, d, us[t - 1]);
      EnsuredUseSettles(front, d, us[t - 1]);
      ClearKept(front, EnsuredUse(front, d, us[t - 1]).value.state, d, us, t - 1);
      forall k | t <= k < |us| ensures Ensurable(EnsuredUse(front, d, us[t - 1]).value.state, d, us[k]) {
        EnsurableKept(front, d, us, t - 1, k);
      }
    }
  }

  /** Usage items that are clear of each other and could each be ensured alone ... */
  ghost predicate Attainable(st: State, d: DesiredPlan) {
    var us := Usages(d.items);
    && d.id != "" && AllAcceptable(d.items) && PlanClear(st, us) && NamesApart(d, us)
    && forall k | 0 <= k < |us| :: Ensurable(st, d, us[k])
  }

  /** ... can all be ensured in one failure-free call, whatever is left over in the account. */
  lemma FirstCallSucceeds(st: State, d: DesiredPlan)
    requires Attainable(st, d)
    ensures PlanEnsurable(st, d) && PlanClear(st, Usages(d.items))
  {
    hide Ensurable, PlanClear, NamesApart, EnsuredUses, Acceptable;
    var us := Usages(d.items);
    FirstUsesSucceed(st, d, us, |us|);
    assert us[..|us|] == us;
  }

  method EnsureProductPlan(s: AmberfloServer, desired: DesiredPlan) returns (r: Result<()>)
    modifies s`tick, s`state, s`planPosts
    ensures s.tick >= old(s.tick)
    ensures s.state == old(s.state).(items := s.state.items, prices := s.state.prices, plans := s.state.plans)
    // Success is referentially sound, through every branch.
    ensures (r.Ok? && PlanClear(old(s.state), Usages(desired.items)) && s.NoneRefused(old(s.tick), s.tick)) ==>
              PlanSound(s.state, WithDefaults(desired))
    // Unless a request was cut off, success reaches a fixed point ...
    ensures (r.Ok? && PlanClear(old(s.state), Usages(desired.items)) && s.Steady(old(s.tick), s.tick)) ==>
              exists gs :: PlanSettled(s.state, WithDefaults(desired), gs)
    // ... at which a call changes nothing and posts no plan, whatever goes wrong.
    ensures (exists gs :: PlanSettled(old(s.state), WithDefaults(desired), gs)) ==>
              s.state == old(s.state) && s.planPosts == old(s.planPosts) && (old(s.FailureFree()) ==> r.Ok?)
    // Exactly when a failure-free call succeeds, and with what.
    ensures old(s.FailureFree()) ==> (r.Ok? <==> PlanEnsurable(old(s.state), WithDefaults(desired)))
    ensures old(s.FailureFree()) && r.Ok? ==> PlanLanded(old(s.state), s.state, WithDefaults(desired))
    // In particular a first call ends in a sound plan, whatever is left over, if nothing clashes.
    ensures old(s.FailureFree()) && Attainable(old(s.state), WithDefaults(desired)) ==>
              r.Ok? && PlanSound(s.state, WithDefaults(desired))
    // Items of live meters that are not desired are left alone, and so are other plans.
    ensures s.NoneRefused(old(s.tick), s.tick) ==> OthersKept(old(s.state), s.state, Usages(desired.items))
    ensures OtherPlansKept(old(s.state.plans), s.state.plans, desired.id)
  {
    hide OtherPlansKept, Attainable, Placed, UseSettled, OthersKept, FirstNonEmpty, PlanSettled, PlanSound, OthersItem;
    hide PlanClear, AllPlaced, AllSettled, Usages, PlanStored, AllAcceptable, Progress, PriceMap, FeesOf, EnsuredUses;
    ghost var start, us := s.state, Usages(desired.items);
    ghost var known: seq<PriceGenerator> := [];
    if exists gs :: PlanSettled(start, WithDefaults(desired), gs) {
      known :| PlanSettled(start, WithDefaults(desired), known);
      SettledIsEnsurable(start, WithDefaults(desired), known);
    }
    if Attainable(start, WithDefaults(desired)) {
      FirstCallSucceeds(start, WithDefaults(desired));
    }
    SameOthers(start, us);
    SamePlans(start.plans, desired.id);
    if desired.id == "" {
      return Err(Permanent(BadRequest));
    }
    var d := WithDefaults(desired);
    var items, gs, priceIds, fees := EnsurePlanItems(s, d, known);
    if items.Err? {
      return Err(items.error);
    }
    ghost var middle, unrefused, steady := s.state, s.NoneRefused(old(s.tick), s.tick), s.Steady(old(s.tick), s.tick);
    if EnsuredUses(start, d, us) == Some(Uses(middle, gs)) {
      EnsuredItemsExist(start, d, us);
      PriceMapItems(gs, middle.items);
    }
    r := StorePlan(s, d, gs, priceIds, fees);
    OthersKeptThrough(start, middle, s.state, us);
    if r.Ok? && PlanClear(start, us) {
      StoredSound(start, middle, s.state, d, gs, unrefused, steady);
    }
  }

  // ---- what soundness means -----------------------------------------------

  predicate DistinctMeters(us: seq<PlanItem>) {
    forall a, b | 0 <= a < b < |us| :: us[a].meter != us[b].meter
  }

  /** A price-map entry names an existing item on a desired meter, and the stored price of that
      same item, with the machine compiled from that usage item's rates. */
  predicate EntrySound(st: State, d: DesiredPlan, pid: string, priceId: string, use: PlanItem) {
    && PointsAt(st.items, pid, use.meter) && priceId == PriceId(d.id, use.id)
    && priceId in st.prices && st.prices[priceId].item == pid
    && MachineOf(use.rates) == Some(st.prices[priceId].machine)
  }

  ghost predicate EntryFor(st: State, d: DesiredPlan, pid: string, priceId: string) {
    exists a :: 0 <= a < |Usages(d.items)| && EntrySound(st, d, pid, priceId, Usages(d.items)[a])
  }

  ghost predicate Served(st: State, priceIds: map<string, string>, meter: string) {
    exists pid :: pid in priceIds && PointsAt(st.items, pid, meter)
  }

  ghost predicate EntriesSound(st: State, d: DesiredPlan, priceIds: map<string, string>) {
    && (forall pid | pid in priceIds :: EntryFor(st, d, pid, priceIds[pid]))
    && (forall use | use in Usages(d.items) :: Served(st, priceIds, use.meter))
  }

  predicate PairsOf(prices: seq<PriceGenerator>, priceIds: map<string, string>) {
    && (forall pid | pid in priceIds ::
          exists i :: 0 <= i < |prices| && prices[i].item == pid && prices[i].priceId == priceIds[pid])
    && (forall g | g in prices :: g.item in priceIds && priceIds[g.item] == g.priceId)
  }

  lemma {:induction false} PlacedEntry(st: State, d: DesiredPlan, gs: seq<PriceGenerator>, pid: string)
    requires AllPlaced(st, d, gs) && pid in PriceMap(gs)
    ensures EntryFor(st, d, pid, PriceMap(gs)[pid])
  {
    hide MachineOf, GeneratorOf, Usages;
    ByItemEntries(gs, pid);
    var a :| 0 <= a < |gs| && gs[a] == ByItem(gs)[pid];
    assert Placed(st, d, Usages(d.items)[a], gs[a]);
    assert EntrySound(st, d, pid, PriceMap(gs)[pid], Usages(d.items)[a]);
  }

  lemma {:induction false} PlacedServes(st: State, d: DesiredPlan, gs: seq<PriceGenerator>, a: nat)
    requires AllPlaced(st, d, gs) && a < |gs|
    ensures Served(st, PriceMap(gs), Usages(d.items)[a].meter)
  {
    hide MachineOf, GeneratorOf, Usages;
    assert Placed(st, d, Usages(d.items)[a], gs[a]);
    ByItemEntries(gs, gs[a].item);
  }

  lemma {:induction false} PlacedEntries(st: State, d: DesiredPlan, gs: seq<PriceGenerator>)
    requires AllPlaced(st, d, gs) && |gs| == |Usages(d.items)|
    ensures EntriesSound(st, d, PriceMap(gs))
  {
    hide EntryFor, Served, AllPlaced, Usages, PriceMap;
    forall pid | pid in PriceMap(gs) ensures EntryFor(st, d, pid, PriceMap(gs)[pid]) {
      PlacedEntry(st, d, gs, pid);
    }
    forall use | use in Usages(d.items) ensures Served(st, PriceMap(gs), use.meter) {
      var a :| 0 <= a < |Usages(d.items)| && Usages(d.items)[a] == use;
      PlacedServes(st, d, gs, a);
    }
  }

  lemma PlacedApart(st: State, d: DesiredPlan, gs: seq<PriceGenerator>)
    requires AllPlaced(st, d, gs) && DistinctMeters(Usages(d.items))
    ensures DistinctItems(gs)
  {
  }

  /** With distinct items the generator and the price map hold the same pairs. */
  lemma {:induction false} DistinctPairs(a: seq<PriceGenerator>, gs: seq<PriceGenerator>)
    requires PricesAgree(a, gs) && DistinctItems(gs)
    ensures PairsOf(a, PriceMap(gs))
  {
    PricesAgreeAsSets(a, gs);
    forall pid | pid in PriceMap(gs)
      ensures exists i :: 0 <= i < |a| && a[i].item == pid && a[i].priceId == PriceMap(gs)[pid]
    {
      ByItemEntries(gs, pid);
      assert Holds(a, ByItem(gs)[pid]);
    }
    forall g | g in a ensures g.item in PriceMap(gs) && PriceMap(gs)[g.item] == g.priceId {
      assert Holds(gs, g);
      HoldsByItem(gs, g);
      ByItemEntries(gs, g.item);
    }
  }

  /** A sound plan, spelled out. */
  lemma PlanSoundMeans(st: State, d: DesiredPlan)
    requires PlanSound(st, d)
    ensures d.id in st.plans
    ensures EntriesSound(st, d, st.plans[d.id].priceIds)
    ensures st.plans[d.id].fees == FeesOf(d.items) && st.plans[d.id].lock.CloseToChanges? && st.plans[d.id].name == d.name
    ensures st.plans[d.id].generator.Some?
    ensures DistinctMeters(Usages(d.items)) ==>
              PairsOf(st.plans[d.id].generator.value.prices, st.plans[d.id].priceIds)
  {
    hide PricesAgree, AllPlaced, EntriesSound, Usages, FeesOf, PriceMap, DistinctMeters, PairsOf;
    var gs :| PlanStored(st, d, gs) && AllPlaced(st, d, gs);
    PlacedEntries(st, d, gs);
    if DistinctMeters(Usages(d.items)) {
      PlacedApart(st, d, gs);
      DistinctPairs(st.plans[d.id].generator.value.prices, gs);
    }
  }

  /** The proviso on the generator is exact: once settled, two usage items on one meter share one
      product item, and the price map keeps only one of their prices. */
  lemma {:induction false} GeneratorPairsExact(st: State, d: DesiredPlan, gs: seq<PriceGenerator>)
    requires PlanSettled(st, d, gs) && DistinctIds(Usages(d.items))
    ensures PairsOf(gs, PriceMap(gs)) <==> DistinctMeters(Usages(d.items))
  {
    hide MachineOf, GeneratorOf, PriceSettled, PlanStored;
    var us := Usages(d.items);
    assert forall a | 0 <= a < |us| :: UseSettled(st, d, us[a], gs[a]);
    if DistinctMeters(us) {
      forall a, b | 0 <= a < b < |gs| ensures gs[a].item != gs[b].item {
        assert PointsAt(st.items, gs[a].item, us[a].meter) && PointsAt(st.items, gs[b].item, us[b].meter);
      }
      assert DistinctItems(gs);
      GeneratorsEqualEquivalence(None, None, None);
      assert PricesAgree(gs, gs);
      DistinctPairs(gs, gs);
    } else {
      var a, b :| 0 <= a < b < |us| && us[a].meter == us[b].meter;
      SettledItemsAgree(st.items, us[a].meter, gs[a].item, gs[b].item);
      PriceIdsDiffer(d.id, us[a].id, us[b].id);
      assert gs[a] in gs && gs[b] in gs;
    }
  }

  lemma SettledItemsAgree(items: Items, meter: string, i: string, j: string)
    requires ItemSettled(items, meter, i) && ItemSettled(items, meter, j)
    ensures i == j
  {
  }

  // ---- deletion -----------------------------------------------------------

  /** Gone, deprecated, or as it was: a plan's lock never moves backward. */
  predicate PlanWinding(before: State, after: State, id: string) {
    || after == before
    || (id in before.plans && (after == before.(plans := before.plans[id := before.plans[id].(lock := Deprecated)])
                               || after == before.(plans := before.plans - {id})))
  }

  predicate PlanDeletable(st: State, id: string) {
    id in st.plans ==> st.plans[id].lock.Deprecated? || st.plans[id].priceIds.Keys <= st.items.Keys
  }

  method DeleteProductPlan(s: AmberfloServer, id: string) returns (r: Result<()>)
    modifies s`tick, s`state, s`planPosts
    ensures PlanWinding(old(s.state), s.state, id)
    // Success means the plan is gone.
    ensures r.Ok? ==> id != "" && id !in s.state.plans
    // A failure-free attempt succeeds exactly when the plan can be deprecated, or needs not be.
    ensures old(s.FailureFree()) ==> (r.Ok? <==> id != "" && PlanDeletable(old(s.state), id))
  {
    if id == "" {
      return Err(Permanent(BadRequest));
    }
    var answer := s.Read();
    if answer.Err? {
      return Err(answer.error);
    }
    if id !in s.state.plans {
      return Ok(());
    }
    var wire := s.state.plans[id];
    if !wire.lock.Deprecated? {
      wire := wire.(lock := Deprecated);
      PostPlanEffect(s.faults(s.tick), s.state, id, wire);
      var posted := s.PostPlan(id, wire);
      if posted.Err? {
        if posted.error == Permanent(NoSuchEntity) {
          return Ok(());
        }
        return posted;
      }
    }
    DeletePlanEffect(s.faults(s.tick), s.state, id);
    var deleted := s.DeletePlan(id);
    if deleted.Err? && deleted.error != Permanent(NoSuchEntity) {
      return deleted;
    }
    return Ok(());
  }

  lemma DeletePlanEffect(f: Fault, st: State, id: string)
    requires id in st.plans && st.plans[id].lock.Deprecated?
    ensures var (after, r) := SettleDeletePlan(f, st, id);
      && (after == st || after == st.(plans := st.plans - {id}))
      && (r.Ok? || r == Err(Permanent(NoSuchEntity)) ==> id !in after.plans)
      && (f.Delivered? ==> r.Ok?)
  {
  }

  /** Deletion can be resumed: whatever earlier attempts left, wherever they failed, the condition
      for the next failure-free attempt still holds. */
  lemma PlanDeletionResumes(before: State, after: State, id: string)
    requires PlanWinding(before, after, id) && PlanDeletable(before, id)
    ensures PlanDeletable(after, id)
    ensures id in before.plans && id in after.plans ==>
              TransitionAllowed(before.plans[id].lock, after.plans[id].lock)
  {
  }
}
