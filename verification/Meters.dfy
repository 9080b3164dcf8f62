/** Reconciling one meter: create, adopt, replace a leftover, update, delete. */
module Meters {
  import opened Naming
  import opened Results
  import opened Server

  datatype DesiredMeter = DesiredMeter(
    apiName: string, title: string, meterType: string, aggregation: seq<string>,
    unit: string, dimensions: seq<string>)

  function BuildWireMeter(d: DesiredMeter): Meter {
    Meter(d.apiName, if d.title == "" then d.apiName else d.title, d.meterType, d.aggregation,
          d.unit, d.dimensions, true, CloseToChanges)
  }

  predicate TitleAcceptable(existing: string, want: string, apiName: string) {
    existing == want || existing == DisambiguatedLabel(want, apiName)
  }

  predicate NeedsUpdate(existing: Meter, want: Meter) {
    || existing.name != want.name
    || !TitleAcceptable(existing.title, want.title, want.name)
    || existing.meterType != want.meterType
    || existing.unit != want.unit
    || existing.lock != want.lock
    || existing.aggregation != want.aggregation
    || existing.dimensions != want.dimensions
  }

  // ---- what a call may do to the account ----------------------------------

  /** A reachable meter that belongs to somebody else: not the requested one, not a UUID-keyed
      leftover, and with a name Amberflo can look up. */
  predicate LiveForeign(st: State, meter: string, wanted: string) {
    meter != "" && meter != wanted && |meter| <= MAX_METER_API_NAME && !UuidShaped(meter)
    && HasMeter(st.meters, meter)
  }

  predicate MayTouch(meter: Meter, wanted: string) { meter.name == wanted || UuidShaped(meter.name) }

  /** Only the requested meter and UUID-keyed leftovers change, locks only move forward, ids are
      never reused, and whatever appears is the requested meter. */
  ghost predicate MetersStep(before: State, after: State, wanted: string) {
    && before.nextId <= after.nextId
    && before.hiddenTitles == after.hiddenTitles
    && (forall id | id in before.meters && !MayTouch(before.meters[id], wanted) ::
          id in after.meters && after.meters[id] == before.meters[id])
    && (forall id | id in before.meters && id in after.meters ::
          after.meters[id].name == before.meters[id].name
          && TransitionAllowed(before.meters[id].lock, after.meters[id].lock))
    && (forall id | id in after.meters && id !in before.meters ::
          before.nextId <= id && after.meters[id].name == wanted)
  }

  /** Items stay, and change only by being pointed at the requested meter. */
  ghost predicate ItemsStep(before: State, after: State, wanted: string) {
    && after.items.Keys == before.items.Keys
    && forall i | i in before.items ::
         after.items[i] == before.items[i] || after.items[i] == before.items[i].(meter := wanted)
  }

  /** No item was taken away from a live foreign meter. */
  ghost predicate ForeignItemsKept(before: State, after: State, wanted: string) {
    forall i | i in before.items && LiveForeign(before, before.items[i].meter, wanted) ::
      i in after.items && after.items[i] == before.items[i]
  }

  /** Every leftover item of that name that may be taken over now points at the wanted meter. */
  ghost predicate Adopted(before: State, after: State, title: string, wanted: string) {
    forall i | i in before.items && i != "" && title != "" && before.items[i].name == title
               && !before.items[i].lock.Deprecated? && !LiveForeign(before, before.items[i].meter, wanted) ::
      i in after.items && after.items[i].meter == wanted
  }

  predicate UniqueItemNames(items: Items) {
    forall i, j | i in items && j in items && items[i].name == items[j].name :: i == j
  }

  /** The account holds the wanted meter and nothing about it needs an update. */
  ghost predicate Converged(st: State, want: Meter) {
    exists id :: id in st.meters && !NeedsUpdate(st.meters[id], want)
  }

  // ---- single requests and their composition ------------------------------

  lemma ServedPostEffect(st: State, m: Meter)
    requires st.Valid()
    ensures var (after, r) := ServePostMeter(st, m);
      && after.Valid() && after.items == st.items && MetersStep(st, after, m.name)
      && (r.Ok? && !m.lock.Unset? ==>
            r.value.id in after.meters && after.meters[r.value.id] == r.value.meter == m)
      && (m.name != "" && Unoccupied(st, m) ==> r.Ok?)
      && (m.name != "" && m.title != "" && m.useInBilling && !HasMeter(st.meters, m.name) && !Unoccupied(st, m) ==>
            after == st && r == Err(Permanent(LabelTaken)))
      && (m.name != "" && m.title != "" && !m.useInBilling ==> (r.Ok? <==> NameAndTitleFree(st, m)))
      && (after != st ==> HasMeter(after.meters, m.name))
  {
    var (after, r) := ServePostMeter(st, m);
    assert after != st ==> after.meters[st.nextId].name == m.name;
  }

  lemma PostMeterEffect(f: Fault, st: State, m: Meter)
    requires st.Valid()
    ensures var (after, r) := SettlePostMeter(f, st, m);
      && after.Valid() && after.items == st.items && MetersStep(st, after, m.name)
      && (r.Ok? && !m.lock.Unset? ==>
            r.value.id in after.meters && after.meters[r.value.id] == r.value.meter == m)
      && (f.Delivered? && m.name != "" && Unoccupied(st, m) ==> r.Ok?)
      && (f.Delivered? && m.name != "" && m.title != "" && m.useInBilling
          && !HasMeter(st.meters, m.name) && !Unoccupied(st, m) ==>
            after == st && r == Err(Permanent(LabelTaken)))
      && (f.Delivered? && m.name != "" && m.title != "" && !m.useInBilling ==> (r.Ok? <==> NameAndTitleFree(st, m)))
  {
    hide MetersStep, Unoccupied, NameAndTitleFree;
    ServedPostEffect(st, m);
    SameMetersStep(st, st, m.name);
    var once := ServePostMeter(st, m).0;
    ServedPostEffect(once, m);
    MetersStepTransitive(st, once, ServePostMeter(once, m).0, m.name);
  }

  /** What a PUT that keeps the name does, however often the server serves it. */
  lemma PutMeterEffect(f: Fault, st: State, row: MeterRow)
    requires st.Valid()
    requires row.id in st.meters && st.meters[row.id].name == row.meter.name
    ensures var (after, r) := SettlePutMeter(f, st, row);
      && (after == st || (TransitionAllowed(st.meters[row.id].lock, row.meter.lock)
                          && after == st.(meters := st.meters[row.id := row.meter])))
      && (r.Ok? ==> r.value == row && row.id in after.meters && after.meters[row.id] == row.meter)
      && r != Err(Permanent(NoSuchEntity)) && r != Err(NotFound)
    ensures f.Delivered? && row.id != 0 && row.meter.name != "" ==>
              (SettlePutMeter(f, st, row).1.Ok? <==> TransitionAllowed(st.meters[row.id].lock, row.meter.lock))
  {
  }

  lemma ReplacedMeterStep(st: State, id: nat, m: Meter, wanted: string)
    requires st.Valid() && id in st.meters && MayTouch(m, wanted)
    requires m.name == st.meters[id].name && TransitionAllowed(st.meters[id].lock, m.lock)
    ensures var after := st.(meters := st.meters[id := m]);
      after.Valid() && MetersStep(st, after, wanted)
  {
  }

  lemma RemovedMeterStep(st: State, id: nat, wanted: string)
    requires st.Valid() && id in st.meters && MayTouch(st.meters[id], wanted)
    ensures var after := st.(meters := st.meters - {id}); after.Valid() && MetersStep(st, after, wanted)
  {
  }

  lemma DeleteMeterEffect(f: Fault, st: State, id: nat, wanted: string)
    requires st.Valid() && id in st.meters && MayTouch(st.meters[id], wanted)
    ensures var (after, r) := SettleDeleteMeter(f, st, id);
      && after.Valid() && after.items == st.items && MetersStep(st, after, wanted)
      && (after == st || after == st.(meters := st.meters - {id}))
      && (r.Ok? ==> id !in after.meters)
      && (f.Delivered? && st.meters[id].lock.Deprecated? ==> r.Ok?)
      && r != Err(Permanent(NoSuchEntity))
  {
    hide MetersStep;
    RemovedMeterStep(st, id, wanted);
    SameMetersStep(st, st, wanted);
  }

  lemma MetersStepTransitive(a: State, b: State, c: State, wanted: string)
    requires a.Valid() && MetersStep(a, b, wanted) && MetersStep(b, c, wanted)
    ensures MetersStep(a, c, wanted)
  {
  }

  lemma ItemsStepTransitive(a: State, b: State, c: State, wanted: string)
    requires ItemsStep(a, b, wanted) && ItemsStep(b, c, wanted)
    ensures ItemsStep(a, c, wanted)
  {
  }

  /** Foreign meters survive the first step, so what was foreign stays protected in the second. */
  lemma ForeignItemsTransitive(a: State, b: State, c: State, wanted: string)
    requires MetersStep(a, b, wanted)
    requires ForeignItemsKept(a, b, wanted) && ForeignItemsKept(b, c, wanted)
    ensures ForeignItemsKept(a, c, wanted)
  {
  }

  lemma SameItemsKept(a: State, b: State, wanted: string)
    requires a.items == b.items
    ensures ItemsStep(a, b, wanted) && ForeignItemsKept(a, b, wanted)
  {
  }

  lemma SameMetersStep(a: State, b: State, wanted: string)
    requires a.Valid() && b == a.(items := b.items)
    ensures MetersStep(a, b, wanted) && b.Valid()
  {
  }

  lemma RetargetedItemStep(a: State, b: State, id: string, wanted: string, kept: bool)
    requires id in a.items && b.items == a.items[id := a.items[id].(meter := wanted)]
    requires kept ==> !LiveForeign(a, a.items[id].meter, wanted)
    ensures ItemsStep(a, b, wanted) && (kept ==> ForeignItemsKept(a, b, wanted))
  {
  }

  /** What may be taken over after a step on meters could be taken over before it. */
  lemma AdoptedSinceStart(a: State, b: State, c: State, title: string, wanted: string)
    requires MetersStep(a, b, wanted) && b.items == a.items && Adopted(b, c, title, wanted)
    ensures Adopted(a, c, title, wanted)
  {
  }

  ghost predicate SharedItemName(items: Items, name: string) {
    exists i, j :: i in items && j in items && i != j && items[i].name == name == items[j].name
  }

  /** At most one leftover item carries the label. */
  ghost predicate Adoptable(items: Items, title: string) { title == "" || !SharedItemName(items, title) }

  ghost predicate SharedTitle(meters: Meters, title: string) {
    exists i, j :: i in meters && j in meters && i != j && meters[i].title == title == meters[j].title
  }

  // ---- lookups ------------------------------------------------------------

  method GetMeter(s: AmberfloServer, name: string) returns (r: Result<MeterRow>)
    modifies s`tick
    ensures s.tick == old(s.tick) + (if name == "" then 0 else 1)
    ensures r.Ok? ==>
              r.value.id in s.state.meters && s.state.meters[r.value.id] == r.value.meter && r.value.meter.name == name
    ensures r == Err(NotFound) ==> !HasMeter(s.state.meters, name)
    ensures name != "" && Answered(s.faults(old(s.tick))) ==>
              if |name| > MAX_METER_API_NAME then r == Err(Permanent(BadRequest)) else r.Ok? || r == Err(NotFound)
    ensures name != "" && !Answered(s.faults(old(s.tick))) ==> r == Err(GlitchFailure(s.faults(old(s.tick)).glitch))
  {
    if name == "" {
      return Err(Permanent(BadRequest));
    }
    var answer := s.Read();
    if answer.Err? {
      return Err(answer.error);
    }
    if |name| > MAX_METER_API_NAME {
      return Err(Permanent(BadRequest));
    }
    if id :| id in s.state.meters && s.state.meters[id].name == name {
      return Ok(MeterRow(id, s.state.meters[id]));
    }
    return Err(NotFound);
  }

  method GetMeterByLabel(s: AmberfloServer, title: string) returns (r: Result<MeterRow>)
    modifies s`tick
    ensures s.tick >= old(s.tick)
    ensures r.Ok? ==>
              r.value.id in s.state.meters && s.state.meters[r.value.id] == r.value.meter && r.value.meter.title == title
    ensures r == Err(NotFound) ==> !HasTitle(s.state.meters, title)
    ensures title != "" && Answered(s.faults(old(s.tick))) && r.Err? && r != Err(NotFound) ==>
              r == Err(Permanent(Ambiguous)) && SharedTitle(s.state.meters, title)
    ensures r.Ok? ==> forall i | i in s.state.meters && s.state.meters[i].title == title :: i == r.value.id
  {
    if title == "" {
      return Err(Permanent(BadRequest));
    }
    var answer := s.Read();
    if answer.Err? {
      return Err(answer.error);
    }
    if id :| id in s.state.meters && s.state.meters[id].title == title {
      if j :| j in s.state.meters && s.state.meters[j].title == title && j != id {
        return Err(Permanent(Ambiguous));
      }
      return Ok(MeterRow(id, s.state.meters[id]));
    }
    return Err(NotFound);
  }

  /** The item with the given display name, if there is exactly one. */
  method ProductItemNamed(s: AmberfloServer, name: string) returns (r: Result<Option<ItemRow>>)
    modifies s`tick
    ensures s.tick == old(s.tick) + 1
    ensures r.Ok? && r.value.Some? ==>
              var row := r.value.value;
              row.id in s.state.items && s.state.items[row.id] == row.item && row.item.name == name
              && forall i | i in s.state.items && s.state.items[i].name == name :: i == row.id
    ensures r.Ok? && r.value.None? ==> !HasItemNamed(s.state.items, name)
    ensures Answered(s.faults(old(s.tick))) && !HasItemNamed(s.state.items, name) ==> r == Ok(None)
    ensures r.Ok? <==> Answered(s.faults(old(s.tick))) && !SharedItemName(s.state.items, name)
    ensures r.Err? ==> r.error != NotFound
  {
    var answer := s.Read();
    if answer.Err? {
      return Err(answer.error);
    }
    if id :| id in s.state.items && s.state.items[id].name == name {
      if j :| j in s.state.items && s.state.items[j].name == name && j != id {
        return Err(Permanent(Ambiguous));
      }
      return Ok(Some(ItemRow(id, s.state.items[id])));
    }
    return Ok(None);
  }

  // ---- leftover product items ---------------------------------------------

  /** Whether an item may be taken over for `wanted`. The answer is exact: taken over unless its
      meter is live and foreign, except that a refused lookup counts as "not live". */
  method RejectLiveForeignProductItem(s: AmberfloServer, item: Item, wanted: string) returns (r: Result<()>)
    modifies s`tick
    ensures old(s.tick) <= s.tick <= old(s.tick) + 1
    ensures LiveForeign(s.state, item.meter, wanted) ==>
              s.tick == old(s.tick) + 1 && (r.Ok? <==> RefusedBy(s.faults(old(s.tick))))
    ensures !LiveForeign(s.state, item.meter, wanted) && s.tick > old(s.tick) ==>
              (r.Ok? <==> Answered(s.faults(old(s.tick))) || RefusedBy(s.faults(old(s.tick))))
    ensures s.tick == old(s.tick) ==> r.Ok?
  {
    if item.meter == "" || item.meter == wanted {
      return Ok(());
    }
    if |item.meter| > MAX_METER_API_NAME || UuidShaped(item.meter) {
      return Ok(());
    }
    var meter := GetMeter(s, item.meter);
    if meter == Err(NotFound) || (meter.Err? && meter.error.Permanent?) {
      return Ok(());
    }
    if meter.Err? {
      return Err(meter.error);
    }
    if meter.value.meter.name == wanted || UuidShaped(meter.value.meter.name) {
      return Ok(());
    }
    return Err(Permanent(NameTaken));
  }

  /** Points an item, just read, at the wanted meter; a deprecated one is unlocked first. */
  method PointProductItemAtMeter(s: AmberfloServer, row: ItemRow, wanted: string) returns (r: Result<()>)
    requires row.id in s.state.items && s.state.items[row.id] == row.item
    modifies s`tick, s`state
    ensures s.tick >= old(s.tick)
    ensures s.state == old(s.state)
            || s.state == old(s.state).(items := old(s.state.items)[row.id := row.item.(meter := wanted)])
    ensures row.item.lock.Deprecated? ==> s.state == old(s.state)
    ensures row.item.meter == wanted ==> r.Ok? && s.state == old(s.state) && s.tick == old(s.tick)
    ensures r.Ok? ==> s.state.items[row.id].meter == wanted
    ensures Answered(s.faults(old(s.tick))) && !row.item.lock.Deprecated? && row.id != "" && row.item.name != "" ==> r.Ok?
    ensures r.Err? && old(s.FailureFree()) ==>
              r.error.Permanent? && s.state == old(s.state)
              && (row.item.lock.Deprecated? || row.id == "" || row.item.name == "")
    ensures r.Err? && !r.error.Transient? && s.Steady(old(s.tick), s.tick) ==>
              s.state == old(s.state) && (row.item.lock.Deprecated? || row.id == "" || row.item.name == "")
    ensures (row.item.meter != wanted && (row.item.name == "" || row.id == "")) ==> s.state == old(s.state) && r.Err?
    ensures (row.item.meter != wanted && row.item.lock.Deprecated?) ==> r.Err?
    ensures r.Err? ==> r.error != NotFound
  {
    if row.item.meter == wanted {
      return Ok(());
    }
    var item := row.item;
    if item.lock.Deprecated? {
      var unlocked := item.(lock := CloseToChanges);
      var answer := UpdateProductItem(s, ItemRow(row.id, unlocked));
      if answer.Err? {
        return answer;
      }
      item := unlocked;
    }
    item := item.(meter := wanted);
    r := UpdateProductItem(s, ItemRow(row.id, item));
  }

  method UpdateProductItem(s: AmberfloServer, row: ItemRow) returns (r: Result<()>)
    modifies s`tick, s`state
    ensures s.tick == old(s.tick) + (if row.id == "" then 0 else 1)
    ensures if row.id == "" then r == Err(Permanent(BadRequest)) && s.state == old(s.state)
            else (s.state, r) == SettlePostItem(s.faults(old(s.tick)), old(s.state), row)
  {
    if row.id == "" {
      return Err(Permanent(BadRequest));
    }
    r := s.PostItem(row);
  }

  /** Retargets a leftover item that carries the meter's display name; a live foreign item is left
      alone without an error, and only a transient failure is reported. */
  method AdoptOrphanProductItem(s: AmberfloServer, title: string, wanted: string) returns (r: Result<()>)
    modifies s`tick, s`state
    ensures s.tick >= old(s.tick)
    ensures s.state == old(s.state).(items := s.state.items)
    ensures ItemsStep(old(s.state), s.state, wanted)
    ensures s.NoneRefused(old(s.tick), s.tick) ==> ForeignItemsKept(old(s.state), s.state, wanted)
    ensures old(s.FailureFree()) ==> (r.Ok? <==> Adoptable(old(s.state.items), title))
    // In a failure-free call a leftover that can be adopted is adopted.
    ensures r.Ok? && old(s.FailureFree()) ==> Adopted(old(s.state), s.state, title, wanted)
    // A refused liveness lookup, on the other hand, gives a live foreign item away.
    ensures forall i | i in old(s.state.items) && i != "" && title != "" && old(s.state.items)[i].name == title
                       && !old(s.state.items)[i].lock.Deprecated?
                       && LiveForeign(old(s.state), old(s.state.items)[i].meter, wanted)
                       && UniqueItemNames(old(s.state.items))
                       && s.faults(old(s.tick)).Delivered? && RefusedBy(s.faults(old(s.tick) + 1))
                       && s.faults(old(s.tick) + 2).Delivered? ::
              s.state.items[i].meter == wanted
  {
    if title == "" {
      return Ok(());
    }
    var found := ProductItemNamed(s, title);
    if found.Err? {
      return Err(found.error);
    }
    if found.value.None? {
      return Ok(());
    }
    var row := found.value.value;
    var rejected := RejectLiveForeignProductItem(s, row.item, wanted);
    if rejected.Err? {
      return Ok(());
    }
    var pointed := PointProductItemAtMeter(s, row, wanted);
    if pointed.Err? && pointed.error.Transient? {
      return pointed;
    }
    return Ok(());
  }

  // ---- creation -----------------------------------------------------------

  /** The wanted meter under a label of its own, out of billing. */
  function UniquelyLabelled(want: Meter): Meter {
    want.(title := DisambiguatedLabel(want.title, want.name), useInBilling := false)
  }

  predicate NameAndTitleFree(st: State, m: Meter) {
    !HasMeter(st.meters, m.name) && !HasTitle(st.meters, m.title) && m.title !in st.hiddenTitles
  }

  /** The wanted meter can be created beside whatever holds its label. */
  ghost predicate Creatable(st: State, want: Meter) {
    && want.name != "" && NameAndTitleFree(st, UniquelyLabelled(want))
    && !SharedItemName(st.items, want.title)
    && forall i | i in st.items && st.items[i].name == want.title :: !LiveForeign(st, st.items[i].meter, want.name)
  }

  method CreateMeterReusingProductItem(s: AmberfloServer, want: Meter) returns (r: Result<MeterRow>)
    requires s.state.Valid() && want.lock == CloseToChanges
    modifies s
    ensures s.state.Valid() && s.tick >= old(s.tick)
    ensures MetersStep(old(s.state), s.state, want.name) && ItemsStep(old(s.state), s.state, want.name)
    ensures s.NoneRefused(old(s.tick), s.tick) ==> ForeignItemsKept(old(s.state), s.state, want.name)
    ensures r.Ok? ==>
              r.value.id in s.state.meters && s.state.meters[r.value.id] == r.value.meter == UniquelyLabelled(want)
    ensures r.Ok? && old(s.FailureFree()) ==> Adopted(old(s.state), s.state, want.title, want.name)
    ensures old(s.FailureFree()) && want.name != "" ==> (r.Ok? <==> Creatable(old(s.state), want))
  {
    hide MetersStep, ItemsStep, ForeignItemsKept, ServePostMeter, ServePostItem, LiveForeign;
    SameMetersStep(s.state, s.state, want.name);
    SameItemsKept(s.state, s.state, want.name);
    var found := ProductItemNamed(s, want.title);
    if found.Err? {
      return Err(found.error);
    }
    if found.value.Some? {
      var rejected := RejectLiveForeignProductItem(s, found.value.value.item, want.name);
      if rejected.Err? {
        return Err(rejected.error);
      }
    }
    ghost var start, t := s.state, s.tick;
    PostMeterEffect(s.faults(s.tick), s.state, UniquelyLabelled(want));
    var created := s.PostMeter(UniquelyLabelled(want));
    SameItemsKept(start, s.state, want.name);
    if created.Err? {
      return created;
    }
    if found.value.Some? {
      ghost var posted := s.state;
      var pointed := PointProductItemAtMeter(s, found.value.value, want.name);
      if s.state == posted {
        SameItemsKept(start, s.state, want.name);
      } else {
        RetargetedItemStep(start, s.state, found.value.value.id, want.name, s.NoneRefused(old(s.tick), s.tick));
      }
      SameMetersStep(posted, s.state, want.name);
      MetersStepTransitive(start, posted, s.state, want.name);
      if pointed.Err? && pointed.error.Transient? {
        return Err(Transient);
      }
    }
    return created;
  }

  // ---- deletion -----------------------------------------------------------

  /** Deprecates, then deletes, a meter that was just read. Not found at any step is success. */
  method DeleteMeterRecord(s: AmberfloServer, row: MeterRow, wanted: string) returns (r: Result<()>)
    requires s.state.Valid()
    requires row.id in s.state.meters && s.state.meters[row.id] == row.meter && MayTouch(row.meter, wanted)
    modifies s
    ensures s.state.Valid() && s.tick >= old(s.tick)
    ensures MetersStep(old(s.state), s.state, wanted) && s.state.items == old(s.state.items)
    ensures forall id | id != row.id && id in old(s.state.meters) ::
              id in s.state.meters && s.state.meters[id] == old(s.state.meters)[id]
    ensures OnlyFewer(old(s.state.meters), s.state.meters)
    ensures s.state == old(s.state).(meters := s.state.meters)
    ensures r.Ok? && row.id != 0 ==> row.id !in s.state.meters
    ensures old(s.FailureFree()) && row.meter.name != "" ==> r.Ok?
  {
    hide MetersStep;
    SameMetersStep(s.state, s.state, wanted);
    if row.id == 0 {
      return Ok(());
    }
    ghost var start := s.state;
    if !row.meter.lock.Deprecated? {
      var want := row.meter.(useInBilling := true, lock := Deprecated);
      PutMeterEffect(s.faults(s.tick), s.state, MeterRow(row.id, want));
      ReplacedMeterStep(s.state, row.id, want, wanted);
      var deprecated := s.PutMeter(MeterRow(row.id, want));
      if deprecated.Err? {
        if deprecated.error == Permanent(NoSuchEntity) {
          return Ok(());
        }
        return Err(deprecated.error);
      }
    }
    ghost var middle := s.state;
    DeleteMeterEffect(s.faults(s.tick), s.state, row.id, wanted);
    var deleted := s.DeleteMeter(row.id);
    MetersStepTransitive(start, middle, s.state, wanted);
    if deleted.Err? && deleted.error != Permanent(NoSuchEntity) {
      return deleted;
    }
    return Ok(());
  }

  /** Nothing new, and whatever is left is as it was, or was deprecated. */
  ghost predicate OnlyFewer(before: Meters, after: Meters) {
    forall id | id in after ::
      id in before && (after[id] == before[id] || after[id] == before[id].(useInBilling := true, lock := Deprecated))
  }

  method DeleteMeter(s: AmberfloServer, name: string, title: string) returns (r: Result<()>)
    requires s.state.Valid()
    modifies s
    ensures s.state.Valid() && s.tick >= old(s.tick)
    ensures MetersStep(old(s.state), s.state, name) && s.state.items == old(s.state.items)
    ensures OnlyFewer(old(s.state.meters), s.state.meters)
    // Success means the meter is gone.
    ensures r.Ok? && 0 !in old(s.state.meters) ==> !HasMeter(s.state.meters, name)
    // A failure-free attempt succeeds from any state, half-deleted or not, exactly when the name can
    // be looked up and, should no meter have it, the label does not point at several meters.
    ensures old(s.FailureFree()) && 0 !in old(s.state.meters) ==>
              (r.Ok? <==> DeletableBy(old(s.state.meters), name, title))
  {
    if name == "" {
      return Err(Permanent(BadRequest));
    }
    var existing := GetMeter(s, name);
    if existing.Err? && existing.error != NotFound {
      return Err(existing.error);
    }
    if existing.Err? {
      if title == "" {
        return Ok(());
      }
      existing := GetMeterByLabel(s, title);
      if existing.Err? {
        if existing.error == NotFound {
          return Ok(());
        }
        return Err(existing.error);
      }
      if existing.value.meter.name != name && !UuidShaped(existing.value.meter.name) {
        return Ok(());
      }
    }
    r := DeleteMeterRecord(s, existing.value, name);
  }

  ghost predicate DeletableBy(meters: Meters, name: string, title: string) {
    && name != "" && |name| <= MAX_METER_API_NAME
    && (HasMeter(meters, name) || title == "" || !SharedTitle(meters, title))
  }

  ghost predicate UniqueTitles(meters: Meters) {
    forall i, j | i in meters && j in meters && meters[i].title == meters[j].title :: i == j
  }

  /** Labels being unique, deletion can be resumed: whatever earlier attempts left behind, and
      wherever they failed, the next failure-free attempt still meets DeleteMeter's condition. */
  lemma DeletionResumes(before: Meters, after: Meters, name: string, title: string)
    requires OnlyFewer(before, after) && UniqueTitles(before)
    ensures UniqueTitles(after)
    ensures DeletableBy(after, name, title) <==> name != "" && |name| <= MAX_METER_API_NAME
  {
  }

  // ---- update -------------------------------------------------------------

  /** PUTs the wanted fields over the meter's own record, then adopts its leftover item. */
  method UpdateMeter(s: AmberfloServer, id: nat, want: Meter) returns (r: Result<MeterRow>)
    requires s.state.Valid() && want.lock == CloseToChanges
    requires id in s.state.meters && s.state.meters[id].name == want.name
    modifies s
    ensures s.state.Valid() && s.tick >= old(s.tick)
    ensures MetersStep(old(s.state), s.state, want.name) && ItemsStep(old(s.state), s.state, want.name)
    ensures s.NoneRefused(old(s.tick), s.tick) ==> ForeignItemsKept(old(s.state), s.state, want.name)
    ensures r.Ok? ==> r.value == MeterRow(id, want) && id in s.state.meters && s.state.meters[id] == want
    ensures id in s.state.meters && (s.state.meters[id] == old(s.state.meters)[id] || s.state.meters[id] == want)
    ensures r.Ok? && old(s.FailureFree()) ==> Adopted(old(s.state), s.state, want.title, want.name)
    ensures old(s.FailureFree()) && id != 0 && want.name != "" ==>
              (r.Ok? <==> TransitionAllowed(old(s.state.meters)[id].lock, CloseToChanges)
                          && Adoptable(old(s.state.items), want.title))
  {
    hide MetersStep, ServePutMeter;
    SameMetersStep(s.state, s.state, want.name);
    if id == 0 {
      return Err(Permanent(BadRequest));
    }
    ghost var start := s.state;
    PutMeterEffect(s.faults(s.tick), s.state, MeterRow(id, want));
    var put := s.PutMeter(MeterRow(id, want));
    SameItemsKept(start, s.state, want.name);
    if s.state == start {
      SameMetersStep(start, start, want.name);
    } else {
      ReplacedMeterStep(start, id, want, want.name);
    }
    if put.Err? {
      return put;
    }
    ghost var middle := s.state;
    var adopted := AdoptOrphanProductItem(s, want.title, want.name);
    SameMetersStep(middle, s.state, want.name);
    MetersStepTransitive(start, middle, s.state, want.name);
    if Adopted(middle, s.state, want.title, want.name) {
      AdoptedSinceStart(start, middle, s.state, want.title, want.name);
    }
    if adopted.Err? {
      return Err(adopted.error);
    }
    return put;
  }

  // ---- the reconciliation -------------------------------------------------

  predicate OnlyTitled(meters: Meters, title: string, id: nat) {
    id in meters && meters[id].title == title && forall j | j in meters && meters[j].title == title :: j == id
  }

  function WithoutMeter(st: State, id: nat): State { st.(meters := st.meters - {id}) }

  /** The label is held by nothing that is listed, or by one UUID-keyed leftover, and the meter can be
      created once that is gone. */
  ghost predicate Replaceable(st: State, want: Meter) {
    if !HasTitle(st.meters, want.title) then Creatable(st, want)
    else exists id :: OnlyTitled(st.meters, want.title, id) && UuidShaped(st.meters[id].name)
                      && Creatable(WithoutMeter(st, id), want)
  }

  /** POST rejected the label: replace a UUID-keyed leftover, or create beside what holds it. */
  method ReplaceLegacyMeter(s: AmberfloServer, want: Meter) returns (r: Result<MeterRow>)
    requires s.state.Valid() && want.lock == CloseToChanges
    modifies s
    ensures s.state.Valid() && s.tick >= old(s.tick)
    ensures MetersStep(old(s.state), s.state, want.name) && ItemsStep(old(s.state), s.state, want.name)
    ensures s.NoneRefused(old(s.tick), s.tick) ==> ForeignItemsKept(old(s.state), s.state, want.name)
    ensures r.Ok? ==> Converged(s.state, want)
    ensures r.Ok? && old(s.FailureFree()) ==> Adopted(old(s.state), s.state, want.title, want.name)
    ensures (old(s.FailureFree()) && want.name != "" && want.title != "" && 0 !in old(s.state.meters)
             && !HasMeter(old(s.state.meters), want.name)) ==>
              (r.Ok? <==> Replaceable(old(s.state), want))
  {
    hide MetersStep, ItemsStep, ForeignItemsKept, Adopted, Creatable;
    ghost var start := s.state;
    SameMetersStep(start, start, want.name);
    SameItemsKept(start, start, want.name);
    var existing := GetMeterByLabel(s, want.title);
    if existing == Err(NotFound) {
      r := CreateMeterReusingProductItem(s, want);
      return r;
    }
    if existing.Err? {
      return Err(existing.error);
    }
    var row := existing.value;
    if row.meter.name == want.name {
      r := UpdateMeter(s, row.id, want);
      return r;
    }
    if !UuidShaped(row.meter.name) {
      return Err(Permanent(LabelTaken));
    }
    var deleted := DeleteMeterRecord(s, row, want.name);
    ghost var middle := s.state;
    SameItemsKept(start, middle, want.name);
    if deleted.Err? {
      return Err(deleted.error);
    }
    assert row.id != 0 ==> middle == WithoutMeter(start, row.id);
    r := CreateMeterReusingProductItem(s, want);
    MetersStepTransitive(start, middle, s.state, want.name);
    if Adopted(middle, s.state, want.title, want.name) {
      AdoptedSinceStart(start, middle, s.state, want.title, want.name);
    }
    ItemsStepTransitive(start, middle, s.state, want.name);
    if s.NoneRefused(old(s.tick), s.tick) {
      ForeignItemsTransitive(start, middle, s.state, want.name);
    }
  }

  function Shortened(sha1: Sha1Hex, d: DesiredMeter): DesiredMeter {
    d.(apiName := MeterAPIName(sha1, d.apiName))
  }

  /** Neither the name nor the label of m is taken, by anything visible or hidden. */
  predicate Unoccupied(st: State, m: Meter) {
    && !HasMeter(st.meters, m.name) && !HasTitle(st.meters, m.title)
    && m.title !in st.hiddenTitles && !HasItemNamed(st.items, m.title)
  }

  /** The label a PUT would leave the meter with. */
  function KeptTitle(m: Meter, want: Meter): string {
    if TitleAcceptable(m.title, want.title, want.name) then m.title else want.title
  }

  /** A meter that exists can be kept, or brought back to the wanted state. */
  ghost predicate Maintainable(st: State, m: Meter, want: Meter) {
    if !NeedsUpdate(m, want) then Adoptable(st.items, want.title)
    else TransitionAllowed(m.lock, CloseToChanges) && Adoptable(st.items, KeptTitle(m, want))
  }

  /** From this state a failure-free call reaches the wanted meter. */
  ghost predicate Reachable(st: State, want: Meter) {
    if HasMeter(st.meters, want.name) then
      exists id :: id in st.meters && st.meters[id].name == want.name && Maintainable(st, st.meters[id], want)
    else Unoccupied(st, want) || Replaceable(st, want)
  }

  /** No meter has the name: POST it, and handle a label held by something else. */
  method CreateMissingMeter(s: AmberfloServer, want: Meter) returns (r: Result<MeterRow>)
    requires s.state.Valid() && want.lock == CloseToChanges
    modifies s
    ensures s.state.Valid() && s.tick >= old(s.tick)
    ensures MetersStep(old(s.state), s.state, want.name) && ItemsStep(old(s.state), s.state, want.name)
    ensures s.NoneRefused(old(s.tick), s.tick) ==> ForeignItemsKept(old(s.state), s.state, want.name)
    ensures r.Ok? ==> Converged(s.state, want)
    ensures (r.Ok? && old(s.FailureFree()) && want.useInBilling && !HasMeter(old(s.state.meters), want.name)) ==>
              Adopted(old(s.state), s.state, want.title, want.name)
    ensures (old(s.FailureFree()) && want.name != "" && want.title != "" && want.useInBilling && 0 !in old(s.state.meters)
             && !HasMeter(old(s.state.meters), want.name)) ==>
              (r.Ok? <==> Unoccupied(old(s.state), want) || Replaceable(old(s.state), want))
  {
    hide MetersStep, ItemsStep, ForeignItemsKept, Adopted, Replaceable, Unoccupied;
    ghost var start := s.state;
    PostMeterEffect(s.faults(s.tick), s.state, want);
    r := s.PostMeter(want);
    ghost var posted := s.state;
    SameItemsKept(start, posted, want.name);
    if r.Ok? && want.useInBilling && s.faults(old(s.tick)).Delivered? {
      NothingToAdopt(start, s.state, want);
    }
    if r.Ok? || r.error != Permanent(LabelTaken) {
      return;
    }
    r := ReplaceLegacyMeter(s, want);
    MetersStepTransitive(start, posted, s.state, want.name);
    if Adopted(posted, s.state, want.title, want.name) {
      AdoptedSinceStart(start, posted, s.state, want.title, want.name);
    }
    ItemsStepTransitive(start, posted, s.state, want.name);
    if s.NoneRefused(old(s.tick), s.tick) {
      ForeignItemsTransitive(start, posted, s.state, want.name);
    }
  }

  /** An accepted POST shows that no item holds the label. */
  lemma NothingToAdopt(st: State, after: State, want: Meter)
    requires want.useInBilling && ServePostMeter(st, want).1.Ok?
    ensures Adopted(st, after, want.title, want.name)
  {
  }

  /** The meter exists: leave it, or PUT over it keeping a label that is already acceptable. */
  method ReconcileFound(s: AmberfloServer, row: MeterRow, want: Meter) returns (r: Result<MeterRow>)
    requires s.state.Valid() && want.lock == CloseToChanges
    requires row.id in s.state.meters && s.state.meters[row.id] == row.meter && row.meter.name == want.name
    modifies s
    ensures s.state.Valid() && s.tick >= old(s.tick)
    ensures MetersStep(old(s.state), s.state, want.name) && ItemsStep(old(s.state), s.state, want.name)
    ensures s.NoneRefused(old(s.tick), s.tick) ==> ForeignItemsKept(old(s.state), s.state, want.name)
    ensures r.Ok? ==> Converged(s.state, want)
    ensures r.Ok? && old(s.FailureFree()) ==>
              exists title | TitleAcceptable(title, want.title, want.name) ::
                Adopted(old(s.state), s.state, title, want.name)
    ensures r.Ok? && old(s.FailureFree()) && !NeedsUpdate(row.meter, want) ==>
              Adopted(old(s.state), s.state, want.title, want.name)
    // An acceptable label is never rewritten.
    ensures TitleAcceptable(row.meter.title, want.title, want.name) ==>
              row.id in s.state.meters && s.state.meters[row.id].title == row.meter.title
    ensures !NeedsUpdate(row.meter, want) ==> s.meterWrites == old(s.meterWrites) && s.state.meters == old(s.state.meters)
    ensures old(s.FailureFree()) && row.id != 0 && want.name != "" ==>
              (r.Ok? <==> Maintainable(old(s.state), row.meter, want))
  {
    hide MetersStep, ItemsStep, ForeignItemsKept, LiveForeign, Adopted;
    ghost var start := s.state;
    if !NeedsUpdate(row.meter, want) {
      var adopted := AdoptOrphanProductItem(s, want.title, want.name);
      SameMetersStep(start, s.state, want.name);
      if adopted.Err? {
        return Err(adopted.error);
      }
      return Ok(row);
    }
    assert TitleAcceptable(want.title, want.title, want.name);
    var kept := want.(title := KeptTitle(row.meter, want));
    r := UpdateMeter(s, row.id, kept);
  }

  method EnsureMeter(s: AmberfloServer, sha1: Sha1Hex, request: DesiredMeter) returns (r: Result<MeterRow>)
    requires s.state.Valid()
    modifies s
    ensures s.state.Valid() && s.tick >= old(s.tick)
    // Convergence, whichever path was taken.
    ensures r.Ok? ==> Converged(s.state, BuildWireMeter(Shortened(sha1, request)))
    // Idempotence: once converged, a call sends no meter write at all.
    ensures old(Converged(s.state, BuildWireMeter(Shortened(sha1, request)))) ==>
              s.meterWrites == old(s.meterWrites) && s.state.meters == old(s.state.meters)
    // Nobody else's objects.
    ensures MetersStep(old(s.state), s.state, MeterAPIName(sha1, request.apiName))
    ensures ItemsStep(old(s.state), s.state, MeterAPIName(sha1, request.apiName))
    ensures s.NoneRefused(old(s.tick), s.tick) ==>
              ForeignItemsKept(old(s.state), s.state, MeterAPIName(sha1, request.apiName))
    // A failure-free success also takes over every leftover item of the label it settled on, which is
    // the wanted one once the meter has converged.
    ensures (r.Ok? && old(s.FailureFree())) ==>
              exists title | TitleAcceptable(title, BuildWireMeter(Shortened(sha1, request)).title,
                                             MeterAPIName(sha1, request.apiName)) ::
                Adopted(old(s.state), s.state, title, MeterAPIName(sha1, request.apiName))
    ensures (r.Ok? && old(s.FailureFree()) && old(Converged(s.state, BuildWireMeter(Shortened(sha1, request))))) ==>
              Adopted(old(s.state), s.state, BuildWireMeter(Shortened(sha1, request)).title,
                      MeterAPIName(sha1, request.apiName))
    // Exactly when a failure-free call succeeds, label collisions included.
    ensures old(s.FailureFree()) && 0 !in old(s.state.meters) ==>
              (r.Ok? <==> request.apiName != "" && request.meterType != ""
                          && Reachable(old(s.state), BuildWireMeter(Shortened(sha1, request))))
  {
    hide Replaceable, Maintainable, Unoccupied;
    hide MetersStep, ItemsStep, ForeignItemsKept, ServePostMeter, ServePutMeter, ServePostItem, LiveForeign, Adopted;
    ghost var start := s.state;
    SameMetersStep(start, start, MeterAPIName(sha1, request.apiName));
    SameItemsKept(start, start, MeterAPIName(sha1, request.apiName));
    if request.apiName == "" {
      return Err(Permanent(BadRequest));
    }
    var desired := Shortened(sha1, request);
    if desired.meterType == "" {
      return Err(Permanent(BadRequest));
    }
    var want := BuildWireMeter(desired);
    var existing := GetMeter(s, desired.apiName);
    if existing == Err(NotFound) {
      r := CreateMissingMeter(s, want);
      assert TitleAcceptable(want.title, want.title, want.name);
      return;
    }
    if existing.Err? {
      return Err(existing.error);
    }
    r := ReconcileFound(s, existing.value, want);
  }

  /** The one meter under the shortened name: active, with the wanted fields, under the wanted
      label or the one made unique by the name. */
  ghost predicate TheWantedMeter(st: State, name: string, d: DesiredMeter, id: nat) {
    && id in st.meters
    && (forall j | j in st.meters :: st.meters[j].name == name <==> j == id)
    && var m, shown := st.meters[id], if d.title == "" then name else d.title;
       m.meterType == d.meterType && m.unit == d.unit && m.dimensions == d.dimensions
       && m.aggregation == d.aggregation && m.lock.CloseToChanges?
       && (m.title == shown || m.title == DisambiguatedLabel(shown, name))
  }

  /** What convergence means. */
  lemma ConvergedMeans(st: State, sha1: Sha1Hex, d: DesiredMeter)
    requires st.Valid()
    ensures Converged(st, BuildWireMeter(Shortened(sha1, d))) <==>
              exists id :: TheWantedMeter(st, MeterAPIName(sha1, d.apiName), d, id)
  {
    hide DisambiguatedLabel, MeterAPIName;
    var want := BuildWireMeter(Shortened(sha1, d));
    if id :| id in st.meters && !NeedsUpdate(st.meters[id], want) {
      assert TheWantedMeter(st, MeterAPIName(sha1, d.apiName), d, id);
    }
    if id :| TheWantedMeter(st, MeterAPIName(sha1, d.apiName), d, id) {
      assert !NeedsUpdate(st.meters[id], want);
    }
  }

  // ---- whole runs ---------------------------------------------------------

  ghost predicate StepOf(states: seq<State>, names: seq<string>, k: nat)
    requires k < |names| < |states|
  {
    MetersStep(states[k], states[k + 1], names[k]) && ItemsStep(states[k], states[k + 1], names[k])
  }

  ghost predicate KeepsForeign(states: seq<State>, names: seq<string>, k: nat)
    requires k < |names| < |states|
  {
    ForeignItemsKept(states[k], states[k + 1], names[k])
  }

  /** Any run of EnsureMeter and DeleteMeter calls, the k-th one for names[k], finished or cut
      short: each call's own contract gives its step. */
  ghost predicate MeterRun(states: seq<State>, names: seq<string>) {
    && |states| == |names| + 1
    && (forall k | 0 <= k < |states| :: states[k].Valid())
    && (forall k | 0 <= k < |names| :: StepOf(states, names, k))
  }

  lemma {:induction false} RunPrefix(states: seq<State>, names: seq<string>)
    requires MeterRun(states, names) && |names| > 0
    ensures MeterRun(states[..|names|], names[..|names| - 1])
  {
    var n := |names| - 1;
    var shorter, earlier := states[..n + 1], names[..n];
    forall k | 0 <= k < n ensures StepOf(shorter, earlier, k) {
      assert StepOf(states, names, k);
    }
  }

  /** Over any run a meter whose name is neither requested nor UUID-shaped is unchanged. */
  lemma {:induction false} ForeignMetersSurvive(states: seq<State>, names: seq<string>, id: nat)
    requires MeterRun(states, names)
    requires id in states[0].meters && states[0].meters[id].name !in names && !UuidShaped(states[0].meters[id].name)
    ensures id in states[|names|].meters && states[|names|].meters[id] == states[0].meters[id]
    decreases |names|
  {
    if |names| > 0 {
      var n := |names| - 1;
      RunPrefix(states, names);
      ForeignMetersSurvive(states[..n + 1], names[..n], id);
      assert StepOf(states, names, n);
    }
  }

  /** Over any run an item of a live foreign meter keeps pointing at it, provided no liveness
      lookup was refused. */
  lemma {:induction false} ForeignItemsSurvive(states: seq<State>, names: seq<string>, i: string)
    requires MeterRun(states, names)
    requires forall k | 0 <= k < |names| :: KeepsForeign(states, names, k)
    requires i in states[0].items && states[0].items[i].meter !in names
    requires LiveForeign(states[0], states[0].items[i].meter, "")
    ensures i in states[|names|].items && states[|names|].items[i] == states[0].items[i]
    decreases |names|
  {
    if |names| > 0 {
      var n := |names| - 1;
      var meter := states[0].items[i].meter;
      RunPrefix(states, names);
      var shorter, earlier := states[..n + 1], names[..n];
      forall k | 0 <= k < n ensures KeepsForeign(shorter, earlier, k) {
        assert KeepsForeign(states, names, k);
      }
      ForeignItemsSurvive(shorter, earlier, i);
      var id :| id in states[0].meters && states[0].meters[id].name == meter;
      ForeignMetersSurvive(states[..n + 1], names[..n], id);
      assert meter != names[n] && LiveForeign(states[n], meter, names[n]);
      assert KeepsForeign(states, names, n);
    }
  }

  /** Over any run a meter's lock never moves backward and its name never changes, and an id that
      was deleted never comes back. */
  lemma {:induction false} LocksOnlyForward(states: seq<State>, names: seq<string>, id: nat)
    requires MeterRun(states, names)
    requires id in states[0].meters
    ensures states[0].nextId <= states[|names|].nextId
    ensures id in states[|names|].meters ==>
              states[|names|].meters[id].name == states[0].meters[id].name
              && TransitionAllowed(states[0].meters[id].lock, states[|names|].meters[id].lock)
    decreases |names|
  {
    if |names| > 0 {
      var n := |names| - 1;
      RunPrefix(states, names);
      LocksOnlyForward(states[..n + 1], names[..n], id);
      assert StepOf(states, names, n);
    }
  }
}
