/** What ensuring a plan comes to when no request fails: which plans can be stored in a fresh account,
    and which pairs of usage items end in a plan that prices one of them on the wrong item. */
module PlanOutcomes {
  import opened Meters
  import opened Naming
  import opened Pricing
  import opened ProductItems
  import opened ProductPlans
  import opened Results
  import opened Server

  // ---- an account with nothing left over ----------------------------------

  predicate PriceNamesApart(d: DesiredPlan, us: seq<PlanItem>) {
    forall a, b | 0 <= a < b < |us| :: PriceNames(d, us[a]) !! PriceNames(d, us[b])
  }

  /** No items and no prices yet, live meters, and prices that cannot collide. */
  predicate Fresh(st: State, d: DesiredPlan, us: seq<PlanItem>) {
    && st.items == map[] && st.prices == map[]
    && (forall a | 0 <= a < |us| :: Live(st, us[a].meter) && us[a].charge.Usage? && Acceptable(us[a]))
    && DistinctIds(us) && PriceNamesApart(d, us)
  }

  /** The first usage item of its meter. */
  predicate Leads(us: seq<PlanItem>, b: nat) {
    b < |us| && forall a | 0 <= a < b :: us[a].meter != us[b].meter
  }

  /** Two meters are to get an item of one name. */
  predicate LabelTwice(us: seq<PlanItem>) {
    exists a, b :: 0 <= a < b < |us| && Leads(us, a) && Leads(us, b) && ItemName(us[a]) == ItemName(us[b])
  }

  predicate ItemOf(st: State, d: DesiredPlan, us: seq<PlanItem>, i: string, a: nat) {
    Leads(us, a) && us[a].meter == i && i in st.items && st.items[i] == WantItem(d, us[a]).item
  }

  predicate PriceOf(st: State, d: DesiredPlan, us: seq<PlanItem>, id: string, a: nat) {
    a < |us| && id == PriceId(d.id, us[a].id) && id in st.prices && st.prices[id].name in PriceNames(d, us[a])
  }

  /** What the account holds after the first t usage items: one item a meter, one price each. */
  ghost predicate FreshSoFar(start: State, st: State, d: DesiredPlan, us: seq<PlanItem>, t: nat) {
    && st.meters == start.meters
    && (forall i | i in st.items :: exists a :: 0 <= a < t && ItemOf(st, d, us, i, a))
    && (forall a | 0 <= a < t && a < |us| :: us[a].meter in st.items)
    && (forall id | id in st.prices :: exists a :: 0 <= a < t && PriceOf(st, d, us, id, a))
  }

  /** The next usage item is refused exactly if its meter is new and its label is taken. */
  lemma FreshItem(start: State, st: State, d: DesiredPlan, us: seq<PlanItem>, t: nat)
    requires t < |us| && Fresh(start, d, us) && FreshSoFar(start, st, d, us, t)
    ensures EnsuredItem(st, WantItem(d, us[t])) ==
            if us[t].meter in st.items then Some(ItemAt(st.items, us[t].meter))
            else if HasItemNamed(st.items, ItemName(us[t])) then None
            else Some(ItemAt(st.items[us[t].meter := WantItem(d, us[t]).item], us[t].meter))
    ensures us[t].meter in st.items <==> !Leads(us, t)
  {
    var want := WantItem(d, us[t]);
    assert Live(start, us[t].meter);
    forall i | i in st.items ensures st.items[i].meter == i && Live(st, i) {
      var a :| 0 <= a < t && ItemOf(st, d, us, i, a);
      assert Live(start, us[a].meter);
    }
    if want.id in st.items {
      var a :| 0 <= a < t && ItemOf(st, d, us, want.id, a);
      assert st.items == st.items[want.id := st.items[want.id].(meter := want.id)];
    }
  }

  lemma FreshPrice(start: State, st: State, d: DesiredPlan, us: seq<PlanItem>, t: nat, pid: string, machine: Machine)
    requires t < |us| && Fresh(start, d, us) && FreshSoFar(start, st, d, us, t)
    ensures PriceId(d.id, us[t].id) !in st.prices
    ensures EnsuredPrice(st.prices, PriceId(d.id, us[t].id), WantPrice(d, us[t], pid, machine)) ==
            Some(st.prices[PriceId(d.id, us[t].id) := WantPrice(d, us[t], pid, machine)])
  {
    hide PriceId, PriceName, DisambiguatedLabel, Live, Acceptable, MachineOf, ItemOf, LiveForeign;
    var id := PriceId(d.id, us[t].id);
    forall k | k in st.prices ensures k != id && st.prices[k].name != PriceName(d, us[t]) {
      var a :| 0 <= a < t && PriceOf(st, d, us, k, a);
      PriceIdsDiffer(d.id, us[a].id, us[t].id);
      assert PriceName(d, us[t]) in PriceNames(d, us[t]);
    }
  }

  /** The label of usage item t is already taken by another meter's item. */
  predicate LabelClashes(us: seq<PlanItem>, t: nat) {
    t < |us| && Leads(us, t) && exists a :: 0 <= a < t && Leads(us, a) && ItemName(us[a]) == ItemName(us[t])
  }

  lemma FreshAfter(start: State, st: State, after: State, d: DesiredPlan, us: seq<PlanItem>, t: nat, price: Price)
    requires t < |us| && FreshSoFar(start, st, d, us, t) && (us[t].meter !in st.items ==> Leads(us, t))
    requires price.name in PriceNames(d, us[t])
    requires after == st.(items := if us[t].meter in st.items then st.items
                                   else st.items[us[t].meter := WantItem(d, us[t]).item],
                          prices := st.prices[PriceId(d.id, us[t].id) := price])
    ensures FreshSoFar(start, after, d, us, t + 1)
  {
    hide PriceNames, PriceId, Leads, WantItem;
    forall i | i in after.items ensures exists a :: 0 <= a < t + 1 && ItemOf(after, d, us, i, a) {
      if i in st.items {
        var a :| 0 <= a < t && ItemOf(st, d, us, i, a);
        assert ItemOf(after, d, us, i, a);
      } else {
        assert ItemOf(after, d, us, i, t);
      }
    }
    forall id | id in after.prices ensures exists a :: 0 <= a < t + 1 && PriceOf(after, d, us, id, a) {
      if id == PriceId(d.id, us[t].id) {
        assert PriceOf(after, d, us, id, t);
      } else {
        var a :| 0 <= a < t && PriceOf(st, d, us, id, a);
        assert PriceOf(after, d, us, id, a);
      }
    }
  }

  lemma FreshNext(start: State, st: State, d: DesiredPlan, us: seq<PlanItem>, t: nat)
    requires t < |us| && Fresh(start, d, us) && FreshSoFar(start, st, d, us, t)
    ensures EnsuredUse(st, d, us[t]).Some? <==> !LabelClashes(us, t)
    ensures EnsuredUse(st, d, us[t]).Some? ==> FreshSoFar(start, EnsuredUse(st, d, us[t]).value.state, d, us, t + 1)
  {
    hide PriceName, PriceId, DisambiguatedLabel, EnsuredItem, EnsuredPrice, Leads, LiveForeign, FreshSoFar;
    FreshItem(start, st, d, us, t);
    FreshLabel(start, st, d, us, t);
    LiveNamed(start, us[t].meter);
    var price := WantPrice(d, us[t], us[t].meter, MachineOf(us[t].rates).value);
    FreshPrice(start, st, d, us, t, us[t].meter, price.machine);
    assert price.name in PriceNames(d, us[t]);
    if EnsuredUse(st, d, us[t]).Some? {
      FreshAfter(start, st, EnsuredUse(st, d, us[t]).value.state, d, us, t, price);
    }
  }

  lemma FreshLabel(start: State, st: State, d: DesiredPlan, us: seq<PlanItem>, t: nat)
    requires t < |us| && FreshSoFar(start, st, d, us, t)
    ensures HasItemNamed(st.items, ItemName(us[t])) <==>
              exists a :: 0 <= a < t && Leads(us, a) && ItemName(us[a]) == ItemName(us[t])
  {
    hide Leads;
    if HasItemNamed(st.items, ItemName(us[t])) {
      var i :| i in st.items && st.items[i].name == ItemName(us[t]);
      var a :| 0 <= a < t && ItemOf(st, d, us, i, a);
    }
    if a :| 0 <= a < t && Leads(us, a) && ItemName(us[a]) == ItemName(us[t]) {
      assert us[a].meter in st.items;
      var c :| 0 <= c < t && ItemOf(st, d, us, us[a].meter, c);
      LeadsOnce(us, a, c);
    }
  }

  lemma LeadsOnce(us: seq<PlanItem>, a: nat, c: nat)
    requires Leads(us, a) && Leads(us, c) && us[a].meter == us[c].meter
    ensures a == c
  {
  }

  lemma {:induction false} FreshUses(st: State, d: DesiredPlan, us: seq<PlanItem>, t: nat)
    requires t <= |us| && Fresh(st, d, us)
    ensures EnsuredUses(st, d, us[..t]).Some? <==> forall b | 0 <= b < t :: !LabelClashes(us, b)
    ensures EnsuredUses(st, d, us[..t]).Some? ==> FreshSoFar(st, EnsuredUses(st, d, us[..t]).value.state, d, us, t)
  {
    hide Fresh, FreshSoFar, EnsuredUse, LabelClashes;
    if t == 0 {
      FreshStart(st, d, us);
    } else {
      FreshUses(st, d, us, t - 1);
      assert us[..t][..t - 1] == us[..t - 1];
      if EnsuredUses(st, d, us[..t - 1]).Some? {
        FreshNext(st, EnsuredUses(st, d, us[..t - 1]).value.state, d, us, t - 1);
      }
    }
  }

  lemma FreshStart(st: State, d: DesiredPlan, us: seq<PlanItem>)
    requires Fresh(st, d, us)
    ensures FreshSoFar(st, st, d, us, 0)
  {
  }

  /** With nothing left over a failure-free call succeeds if and only if no two meters are to get an
      item of one name: a plan whose services share a display name can never be stored. */
  lemma FreshAccountExact(st: State, d: DesiredPlan)
    requires d.id != "" && AllAcceptable(d.items) && Fresh(st, d, Usages(d.items))
    ensures PlanEnsurable(st, d) <==> !LabelTwice(Usages(d.items))
  {
    hide Fresh, EnsuredUses, Acceptable, Leads, FirstNonEmpty;
    var us := Usages(d.items);
    FreshUses(st, d, us, |us|);
    assert us[..|us|] == us;
    if LabelTwice(us) {
      var a, b :| 0 <= a < b < |us| && Leads(us, a) && Leads(us, b) && ItemName(us[a]) == ItemName(us[b]);
      assert LabelClashes(us, b);
    }
  }

  /** Price ids without spaces that leave room for a label keep all price names apart. */
  lemma PriceNamesDiffer(d: DesiredPlan, us: seq<PlanItem>)
    requires DistinctIds(us)
    requires forall a | 0 <= a < |us| :: SpaceFree(PriceId(d.id, us[a].id)) && SuffixFits(PriceId(d.id, us[a].id))
    ensures PriceNamesApart(d, us)
  {
    hide DisambiguatedLabel, PriceId, SpaceFree;
    forall a, b | 0 <= a < b < |us| ensures PriceNames(d, us[a]) !! PriceNames(d, us[b]) {
      PriceIdsDiffer(d.id, us[a].id, us[b].id);
      forall l0, l1
        ensures DisambiguatedLabel(l0, PriceId(d.id, us[a].id)) != DisambiguatedLabel(l1, PriceId(d.id, us[b].id))
      {
        DisambiguatedLabelsDiffer(l0, PriceId(d.id, us[a].id), l1, PriceId(d.id, us[b].id));
      }
    }
  }

  // ---- an item under another desired meter's id ---------------------------

  /** The search for the meter's item ends at `id`, which is not stored under the meter's own id. */
  ghost predicate Handed(items: Items, meter: string, name: string, id: string) {
    && !(meter in items && (items[meter].meter == meter || !Stuck(ItemRow(meter, items[meter]))))
    && if HasItemFor(items, meter) then Picks(items, meter, id) else meter !in items && OnlyNamed(items, id, name)
  }

  /** What is stored under the second item's meter id is handed to the first item, and can be
      taken back: it is not deprecated, and not passed over for want of a name. */
  ghost predicate Stolen(st: State, first: PlanItem, second: PlanItem) {
    var items, id := st.items, second.meter;
    && first.meter != id && id in items && Handed(items, first.meter, ItemName(first), id)
    && !items[id].lock.Deprecated? && (items[id].name != "" || !HasItemFor(items, id))
  }

  /** Ensuring the second item takes another live meter's item away exactly in that case. */
  lemma TakenBack(st: State, want: ItemRow, id: string)
    requires want.id == want.item.meter && want.id != "" && EnsuredItem(st, want).Some?
    requires id in st.items && LiveForeign(st, st.items[id].meter, want.id)
    ensures id in EnsuredItem(st, want).value.items
    ensures if id == want.id && !st.items[id].lock.Deprecated? && (st.items[id].name != "" || !HasItemFor(st.items, id))
            then EnsuredItem(st, want).value.items[id].meter == want.id && EnsuredItem(st, want).value.id == id
            else EnsuredItem(st, want).value.items[id] == st.items[id]
  {
    hide DisambiguatedLabel;
  }

  /** The first item is given what is stored under the other id exactly if it is handed it. */
  lemma HandedOver(st: State, want: ItemRow, id: string)
    requires want.id == want.item.meter && want.id != id && id != "" && want.item.name != ""
    requires EnsuredItem(st, want).Some?
    ensures var e := EnsuredItem(st, want).value;
      && (id in st.items && !st.items[id].lock.Deprecated? ==>
            (e.id == id <==> Handed(st.items, want.id, want.item.name, id)))
      && (e.id == id ==> id in st.items && e.items[id] == st.items[id].(meter := want.id))
      && (e.id == id && st.items[id].name == "" ==> e.items == st.items)
  {
    hide LiveForeign, DisambiguatedLabel;
    forall i, j | Picks(st.items, want.id, i) && Picks(st.items, want.id, j) ensures i == j {
      PicksOne(st.items, want.id, i, j);
    }
  }

  lemma SecondUseTakes(before: State, d: DesiredPlan, first: PlanItem, second: PlanItem)
    requires Live(before, first.meter) && Live(before, second.meter)
    requires EnsuredUse(before, d, first).Some?
    requires EnsuredUse(EnsuredUse(before, d, first).value.state, d, second).Some?
    ensures var mid := EnsuredUse(before, d, first).value;
      var end := EnsuredUse(mid.state, d, second).value;
      && (PointsAt(end.state.items, mid.g.item, first.meter) <==> !Stolen(before, first, second))
      && (Stolen(before, first, second) ==> mid.g.item == end.g.item)
  {
    hide EnsuredUse, EnsuredItem, DisambiguatedLabel, MachineOf, UseEdit;
    hide PriceSettled, PriceEdit, ItemEdit, Picks, Handed, Stuck;
    var mid := EnsuredUse(before, d, first).value;
    var end := EnsuredUse(mid.state, d, second).value;
    EnsuredUseSettles(before, d, first);
    EnsuredUseSettles(mid.state, d, second);
    assert mid.state.meters == before.meters by { UseKeepsMeters(before, mid.state, d, first); }
    if first.meter == second.meter {
      SettledIsEnsured(mid.state, WantItem(d, second), mid.g.item);
      SettledPoints(mid.state.items, first.meter, mid.g.item);
    } else {
      SettledPoints(mid.state.items, first.meter, mid.g.item);
      TakenBack(mid.state, WantItem(d, second), mid.g.item);
      HandedOver(before, WantItem(d, first), second.meter);
    }
  }

  lemma UseKeepsMeters(before: State, after: State, d: DesiredPlan, item: PlanItem)
    requires UseEdit(before, after, d, item)
    ensures after.meters == before.meters
  {
  }

  lemma SettledPoints(items: Items, meter: string, id: string)
    requires ItemSettled(items, meter, id)
    ensures PointsAt(items, id, meter)
  {
  }

  lemma {:induction false} TwoUses(st: State, d: DesiredPlan, us: seq<PlanItem>)
    requires |us| == 2
    ensures EnsuredUses(st, d, us).Some? <==>
              EnsuredUse(st, d, us[0]).Some? && EnsuredUse(EnsuredUse(st, d, us[0]).value.state, d, us[1]).Some?
    ensures EnsuredUses(st, d, us).Some? ==>
              var mid := EnsuredUse(st, d, us[0]).value;
              var end := EnsuredUse(mid.state, d, us[1]).value;
              EnsuredUses(st, d, us) == Some(Uses(end.state, [mid.g, end.g]))
  {
    hide EnsuredUse;
    EnsuredNext(st, d, us, 0);
    EnsuredNext(st, d, us, 1);
    assert us[..0] == [] && us[..2] == us;
    assert forall g: PriceGenerator :: [] + [g] == [g];
    assert forall f: PriceGenerator, g: PriceGenerator :: [f] + [g] == [f, g];
  }

  /** If one item serves both meters in the end, no reading of the stored plan is sound. */
  lemma {:induction false} SharedItemUnsound(st: State, d: DesiredPlan, gs: seq<PriceGenerator>)
    requires PlanStored(st, d, gs) && |gs| == 2 && gs[0].item == gs[1].item
    requires !PointsAt(st.items, gs[0].item, Usages(d.items)[0].meter)
    ensures !PlanSound(st, d)
  {
    hide Usages, PlanStored, MachineOf, GeneratorOf, PriceMap;
    StoredPriceIds(st, d, gs);
    forall other: seq<PriceGenerator> | PlanStored(st, d, other) ensures !AllPlaced(st, d, other) {
      StoredPriceIds(st, d, other);
      assert HasItem(other, other[0].item);
      ByItemEntries(other, other[0].item);
      ByItemEntries(gs, other[0].item);
      assert other[0].item == gs[0].item;
      assert !Placed(st, d, Usages(d.items)[0], other[0]);
    }
  }

  lemma SettledIsPlaced(st: State, after: State, d: DesiredPlan, item: PlanItem, g: PriceGenerator)
    requires UseSettled(st, d, item, g) && after == st.(plans := after.plans)
    ensures Placed(after, d, item, g)
  {
  }

  lemma SecondKeepsPrice(mid: State, end: State, after: State, d: DesiredPlan, first: PlanItem, second: PlanItem,
                         g: PriceGenerator)
    requires UseSettled(mid, d, first, g) && UseEdit(mid, end, d, second) && first.id != second.id
    requires after == end.(plans := after.plans) && PointsAt(after.items, g.item, first.meter)
    ensures Placed(after, d, first, g)
  {
    PriceIdsDiffer(d.id, first.id, second.id);
  }

  /** A failure-free success on two usage items is sound if and only if the second does not take
      back what the first was handed. */
  lemma TwoItemsExact(before: State, after: State, d: DesiredPlan)
    requires PlanLanded(before, after, d) && |Usages(d.items)| == 2 && DistinctIds(Usages(d.items))
    requires forall a | 0 <= a < 2 :: Live(before, Usages(d.items)[a].meter)
    ensures PlanSound(after, d) <==> !Stolen(before, Usages(d.items)[0], Usages(d.items)[1])
  {
    hide Usages, EnsuredUse, EnsuredUses, Stolen, ProductPlanNeedsUpdate, UseEdit, LiveForeign, ItemSettled, PriceSettled;
    var us := Usages(d.items);
    TwoUses(before, d, us);
    var mid := EnsuredUse(before, d, us[0]).value;
    var end := EnsuredUse(mid.state, d, us[1]).value;
    var gs := [mid.g, end.g];
    SecondUseTakes(before, d, us[0], us[1]);
    if Stolen(before, us[0], us[1]) {
      SharedItemUnsound(after, d, gs);
    } else {
      EnsuredUseSettles(before, d, us[0]);
      EnsuredUseSettles(mid.state, d, us[1]);
      SecondKeepsPrice(mid.state, end.state, after, d, us[0], us[1], mid.g);
      SettledIsPlaced(end.state, after, d, us[1], end.g);
      assert AllPlaced(after, d, gs);
    }
  }

  function TwoMeterPlan(first: string, second: string, rates: seq<PlanRate>): DesiredPlan {
    DesiredPlan("p", "p", "", "1", "USD",
                [PlanItem("a", "", Usage, first, rates, 0.0), PlanItem("b", "", Usage, second, rates, 0.0)])
  }

  lemma {:induction false} TwoMeterPlanLands(st: State, first: string, second: string, title: string,
                                             rates: seq<PlanRate>)
    requires first != second && Live(st, first) && Live(st, second) && title != "" && MachineOf(rates).Some?
    requires st.items == map[second := Item(title, first, "1", CloseToChanges)] && st.prices == map[]
    ensures var d := TwoMeterPlan(first, second, rates);
      && Usages(d.items) == d.items && PlanEnsurable(st, d) && Stolen(st, d.items[0], d.items[1])
  {
    hide DisambiguatedLabel, LiveForeign, MachineOf, GeneratorOf, EnsuredUses;
    LiveNamed(st, first);
    LiveNamed(st, second);
    var d := TwoMeterPlan(first, second, rates);
    var us := d.items;
    assert Usages(us) == us by {
      assert us[..1] == [us[0]] && us[..1][..0] == [];
      assert Usages([]) == [];
    }
    assert PointsAt(st.items, second, first);
    SettledIsEnsured(st, WantItem(d, us[0]), second);
    var mid := EnsuredUse(st, d, us[0]).value.state;
    PriceNamesDiffer(d, us);
    PriceIdsDiffer(d.id, us[0].id, us[1].id);
    assert us[0].id != us[1].id;
    WritableKept(st.prices, d, us[0], us[1], WantPrice(d, us[0], second, MachineOf(rates).value));
    TwoUses(st, d, us);
  }

  /** A plan for two live meters, the second of which has under its id the item of the first: the
      call reports success, and no reading of the stored plan is sound. */
  method StoreUnsoundPlan(s: AmberfloServer, first: string, second: string, title: string, rates: seq<PlanRate>)
      returns (r: Result<()>)
    requires s.FailureFree() && first != second && Live(s.state, first) && Live(s.state, second)
    requires title != "" && MachineOf(rates).Some? && s.state.prices == map[]
    requires s.state.items == map[second := Item(title, first, "1", CloseToChanges)]
    modifies s`tick, s`state, s`planPosts
    ensures r.Ok? && !PlanSound(s.state, TwoMeterPlan(first, second, rates))
  {
    hide PlanEnsurable, PlanLanded, PlanSound, PlanClear, Attainable, Stolen, Usages, MachineOf, PlanSettled, OthersKept;
    ghost var start, d := s.state, TwoMeterPlan(first, second, rates);
    TwoMeterPlanLands(start, first, second, title, rates);
    r := EnsureProductPlan(s, TwoMeterPlan(first, second, rates));
    TwoItemsExact(start, s.state, d);
  }
}
