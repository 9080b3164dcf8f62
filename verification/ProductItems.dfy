/** Product items and their prices under a product plan: find a leftover, a sibling or nothing,
    reuse it or create, and survive the names that leftovers hold. */
module ProductItems {
  import opened Meters
  import opened Naming
  import opened Results
  import opened Server

  // ---- which item answers for a meter -------------------------------------

  predicate PointsAt(items: Items, id: string, meter: string) {
    id in items && items[id].meter == meter
  }

  /** The one item on a meter, or the one among several that is not deprecated. */
  ghost predicate Picks(items: Items, meter: string, id: string) {
    && PointsAt(items, id, meter)
    && ((forall j | PointsAt(items, j, meter) :: j == id)
        || (!items[id].lock.Deprecated?
            && forall j | PointsAt(items, j, meter) && !items[j].lock.Deprecated? :: j == id))
  }

  /** An item that cannot be retargeted. */
  predicate Stuck(row: ItemRow) { row.item.lock.Deprecated? || row.item.name == "" || row.id == "" }

  /** Looking up the meter's product item ends at `id`, without any need to change something. */
  ghost predicate ItemSettled(items: Items, meter: string, id: string) {
    if PointsAt(items, meter, meter) then id == meter
    else (meter in items ==> Stuck(ItemRow(meter, items[meter]))) && Picks(items, meter, id)
  }

  /** What ensuring the item of one meter may do: retarget the item stored under the meter's own
      id, retarget a leftover that carries the wanted name and serves no live foreign meter, or
      create the item under the meter's own id. */
  ghost predicate ItemEdit(before: State, after: Items, meter: string, name: string, guarded: bool) {
    && before.items.Keys <= after.Keys <= before.items.Keys + {meter}
    && (meter in after && meter !in before.items ==> after[meter].meter == meter)
    && forall i | i in before.items ::
         || after[i] == before.items[i]
         || (i == meter && after[i].meter == meter && !before.items[i].lock.Deprecated?)
         || (i != meter && after[i] == before.items[i].(meter := meter) && before.items[i].name == name
             && !before.items[i].lock.Deprecated? && (guarded ==> !LiveForeign(before, before.items[i].meter, meter)))
  }

  method ProductItemForMeter(s: AmberfloServer, meter: string) returns (r: Result<Option<ItemRow>>)
    modifies s`tick
    ensures s.tick == old(s.tick) + (if meter == "" then 0 else 1)
    ensures r.Ok? && r.value.Some? ==>
              Picks(s.state.items, meter, r.value.value.id) && s.state.items[r.value.value.id] == r.value.value.item
    ensures r.Ok? && r.value.None? && meter != "" ==> !HasItemFor(s.state.items, meter)
    ensures meter != "" && Answered(s.faults(old(s.tick))) && r.Err? ==>
              HasItemFor(s.state.items, meter) && forall id :: !Picks(s.state.items, meter, id)
    ensures meter != "" && !Answered(s.faults(old(s.tick))) ==> r == Err(GlitchFailure(s.faults(old(s.tick)).glitch))
  {
    if meter == "" {
      return Ok(None);
    }
    var answer := s.Read();
    if answer.Err? {
      return Err(answer.error);
    }
    var items := s.state.items;
    if id :| id in items && items[id].meter == meter {
      assert PointsAt(items, id, meter);
      if j :| j in items && items[j].meter == meter && j != id {
        assert PointsAt(items, j, meter);
        if k :| k in items && items[k].meter == meter && !items[k].lock.Deprecated? {
          assert PointsAt(items, k, meter);
          if l :| l in items && items[l].meter == meter && !items[l].lock.Deprecated? && l != k {
            assert PointsAt(items, l, meter);
            return Err(Permanent(Ambiguous));
          }
          return Ok(Some(ItemRow(k, items[k])));
        }
        return Err(Permanent(Ambiguous));
      }
      return Ok(Some(ItemRow(id, items[id])));
    }
    return Ok(None);
  }

  // ---- what a failure-free ensureProductItem comes to ----------------------

  ghost predicate HasPick(items: Items, meter: string) { exists id :: Picks(items, meter, id) }

  datatype ItemAt = ItemAt(items: Items, id: string)

  /** The wanted item under a name that nothing but the meter's id could have given it. */
  function Renamed(want: ItemRow): ItemRow {
    want.(item := want.item.(name := DisambiguatedLabel(want.item.name, want.id)))
  }

  /** The account's items and the item taken when no request fails; None if no item can be had. */
  ghost function EnsuredItem(st: State, want: ItemRow): Option<ItemAt> {
    var items, meter := st.items, want.id;
    if meter in items && (items[meter].meter == meter || !Stuck(ItemRow(meter, items[meter]))) then
      Some(ItemAt(items[meter := items[meter].(meter := meter)], meter))
    else if HasItemFor(items, meter) then
      if HasPick(items, meter) then
        var id :| Picks(items, meter, id);
        Some(ItemAt(items, id))
      else None
    else if meter in items then
      if items[meter].lock.Deprecated? then None else Some(ItemAt(items[meter := Renamed(want).item], meter))
    else if !HasItemNamed(items, want.item.name) then Some(ItemAt(items[meter := want.item], meter))
    else if SharedItemName(items, want.item.name) then None
    else
      var id :| id in items && items[id].name == want.item.name;
      if LiveForeign(st, items[id].meter, meter) then None
      else if !Stuck(ItemRow(id, items[id])) then Some(ItemAt(items[id := items[id].(meter := meter)], id))
      else if HasItemNamed(items, Renamed(want).item.name) then None
      else Some(ItemAt(items[meter := Renamed(want).item], meter))
  }

  function Reached(items: Items, r: Result<string>): Option<ItemAt> {
    if r.Ok? then Some(ItemAt(items, r.value)) else None
  }

  lemma PicksOne(items: Items, meter: string, i: string, j: string)
    requires Picks(items, meter, i) && Picks(items, meter, j)
    ensures i == j
  {
  }

  // ---- ensureProductItem --------------------------------------------------

  /** The only item of that name. */
  predicate OnlyNamed(items: Items, id: string, name: string) {
    id in items && items[id].name == name && forall i | i in items && items[i].name == name :: i == id
  }

  /** What the search for the wanted item may end with: the item under the wanted id, else the one on
      the wanted meter, else a leftover with the wanted name that serves no live foreign meter. */
  ghost predicate Candidate(st: State, want: ItemRow, got: ItemRow, guarded: bool) {
    && Taken(st.items, want.id, got)
    && (got.id == want.id || Picks(st.items, want.id, got.id)
        || (!HasItemFor(st.items, want.id) && OnlyNamed(st.items, got.id, want.item.name)
            && (guarded ==> !LiveForeign(st, got.item.meter, want.id))))
  }

  /** A failure-free search ends with a candidate, or shows that there is none. */
  ghost predicate Searchable(st: State, want: ItemRow) {
    want.id in st.items
    || (if HasItemFor(st.items, want.id) then HasPick(st.items, want.id)
        else
          !SharedItemName(st.items, want.item.name)
          && forall i | i in st.items && st.items[i].name == want.item.name ::
               !LiveForeign(st, st.items[i].meter, want.id))
  }

  method FindProductItem(s: AmberfloServer, want: ItemRow) returns (r: Result<Option<ItemRow>>)
    requires want.id == want.item.meter && want.id != ""
    modifies s`tick
    ensures s.tick > old(s.tick)
    ensures r.Ok? && r.value.Some? ==> Candidate(s.state, want, r.value.value, s.NoneRefused(old(s.tick), s.tick))
    ensures r.Ok? && r.value.None? ==>
              want.id !in s.state.items && !HasItemFor(s.state.items, want.id)
              && !HasItemNamed(s.state.items, want.item.name)
    ensures old(s.FailureFree()) ==> (r.Ok? <==> Searchable(s.state, want))
  {
    var answer := s.Read();
    if answer.Err? {
      return Err(answer.error);
    }
    if want.id in s.state.items {
      return Ok(Some(ItemRow(want.id, s.state.items[want.id])));
    }
    var leftover := ProductItemForMeter(s, want.item.meter);
    if leftover.Err? || leftover.value.Some? {
      return leftover;
    }
    leftover := ProductItemNamed(s, want.item.name);
    if leftover.Ok? && leftover.value.Some? {
      var rejected := RejectLiveForeignProductItem(s, leftover.value.value.item, want.item.meter);
      if rejected.Err? {
        return Err(rejected.error);
      }
    }
    return leftover;
  }

  /** Points a found item at the meter. None: it cannot be had, and no other item is on the meter. */
  method ReuseProductItem(s: AmberfloServer, got: ItemRow, meter: string) returns (r: Result<Option<string>>)
    requires got.id in s.state.items && s.state.items[got.id] == got.item && meter != ""
    modifies s`tick, s`state
    ensures s.tick >= old(s.tick)
    ensures s.state == old(s.state)
            || (!Stuck(got)
                && s.state == old(s.state).(items := old(s.state.items)[got.id := got.item.(meter := meter)]))
    ensures got.item.meter == meter ==> r == Ok(Some(got.id)) && s.state == old(s.state)
    ensures r.Ok? && r.value.Some? ==> PointsAt(s.state.items, r.value.value, meter)
    ensures r.Ok? && got.item.meter != meter && Stuck(got) ==>
              if r.value.Some? then Picks(s.state.items, meter, r.value.value) else !HasItemFor(s.state.items, meter)
    ensures s.Steady(old(s.tick), s.tick) && r.Ok? && !Stuck(got) ==> r == Ok(Some(got.id))
    ensures old(s.FailureFree()) ==>
              (r.Ok? <==> got.item.meter == meter || !Stuck(got)
                          || (HasItemFor(old(s.state.items), meter) ==> HasPick(old(s.state.items), meter)))
    ensures old(s.FailureFree()) && !Stuck(got) ==> r == Ok(Some(got.id))
  {
    var pointed := PointProductItemAtMeter(s, got, meter);
    if pointed.Ok? {
      return Ok(Some(got.id));
    }
    if pointed.error.Transient? {
      return Err(Transient);
    }
    var sibling := ProductItemForMeter(s, meter);
    if sibling.Err? {
      return Err(sibling.error);
    }
    if sibling.value.Some? && sibling.value.value.id != got.id {
      return Ok(Some(sibling.value.value.id));
    }
    return Ok(None);
  }

  /** A failure-free create is accepted, or stumbles over the one item that holds the meter. */
  ghost predicate Storable(items: Items, want: ItemRow) {
    if want.id in items then !items[want.id].lock.Deprecated? && HasPick(items[want.id := want.item], want.id)
    else !HasItemNamed(items, want.item.name) && (HasItemFor(items, want.id) ==> HasPick(items, want.id))
  }

  /** Creates the item under the meter's name, or finds the one that already holds the meter. */
  method CreateProductItem(s: AmberfloServer, want: ItemRow) returns (r: Result<string>)
    requires want.id == want.item.meter && want.id != "" && want.item.name != "" && !want.item.lock.Deprecated?
    modifies s`tick, s`state
    ensures s.tick >= old(s.tick)
    ensures s.state == old(s.state)
            || ((want.id in old(s.state.items) ==> !old(s.state.items)[want.id].lock.Deprecated?)
                && s.state == old(s.state).(items := old(s.state.items)[want.id := want.item]))
    ensures r.Ok? ==> Picks(s.state.items, want.id, r.value)
    ensures r.Ok? && !HasItemFor(old(s.state.items), want.id) ==> r.value == want.id
    ensures old(s.FailureFree()) ==> (r.Ok? <==> Storable(old(s.state.items), want))
    ensures old(s.FailureFree()) && r.Ok? && !HasItemFor(old(s.state.items), want.id) ==>
              s.state.items == old(s.state.items)[want.id := want.item]
  {
    ghost var before, after := s.state.items, s.state.items[want.id := want.item];
    assert PointsAt(after, want.id, want.id);
    var posted := s.PostItem(want);
    if posted.Err? {
      if posted.error != Permanent(SameMeter) {
        return Err(posted.error);
      }
      var sibling := ProductItemForMeter(s, want.item.meter);
      if sibling.Err? {
        return Err(sibling.error);
      }
      if sibling.value.Some? {
        return Ok(sibling.value.value.id);
      }
      return Err(posted.error);
    }
    assert s.state.items == after;
    assert !HasItemFor(before, want.id) ==> Picks(after, want.id, want.id);
    var created := ProductItemForMeter(s, want.item.meter);
    if created.Err? {
      return Err(created.error);
    }
    if created.value.Some? {
      return Ok(created.value.value.id);
    }
    return Ok(want.id);
  }

  lemma NothingIsEdit(before: State, meter: string, name: string, guarded: bool)
    ensures ItemEdit(before, before.items, meter, name, guarded)
  {
  }

  lemma LooserEdit(before: State, after: Items, meter: string, name: string, guarded: bool, still: bool)
    requires ItemEdit(before, after, meter, name, guarded) && (still ==> guarded)
    ensures ItemEdit(before, after, meter, name, still)
  {
  }

  lemma RetargetIsEdit(before: State, after: Items, got: ItemRow, meter: string, name: string, guarded: bool)
    requires got.id in before.items && before.items[got.id] == got.item
    requires after == before.items
             || (!got.item.lock.Deprecated? && after == before.items[got.id := got.item.(meter := meter)])
    requires got.id == meter || got.item.meter == meter
             || (got.item.name == name && (guarded ==> !LiveForeign(before, got.item.meter, meter)))
    ensures ItemEdit(before, after, meter, name, guarded)
  {
  }

  lemma CreationIsEdit(before: State, middle: Items, after: Items, row: ItemRow, name: string, guarded: bool)
    requires ItemEdit(before, middle, row.id, name, guarded) && row.item.meter == row.id
    requires after == middle
             || ((row.id in middle ==> !middle[row.id].lock.Deprecated?) && after == middle[row.id := row.item])
    ensures ItemEdit(before, after, row.id, name, guarded)
  {
  }

  /** What a settled item looks like to the search that found `row`. */
  lemma SettledFound(items: Items, meter: string, id: string, row: ItemRow)
    requires ItemSettled(items, meter, id) && row.id in items && items[row.id] == row.item
    requires row.id != meter ==> meter !in items
    requires row.id == meter || Picks(items, meter, row.id) || !HasItemFor(items, meter)
    ensures HasItemFor(items, meter)
    ensures row.item.meter == meter ==> row.id == id
    ensures row.item.meter != meter ==> Stuck(row) && Picks(items, meter, id) && id != row.id
  {
  }

  predicate Taken(items: Items, meter: string, row: ItemRow) {
    row.id in items && items[row.id] == row.item && (row.id != meter ==> meter !in items)
  }

  /** A reused item answers for the meter from here on. */
  lemma ReusedIsSettled(before: Items, after: Items, meter: string, got: ItemRow, id: string)
    requires Taken(before, meter, got)
    requires got.id == meter || Picks(before, meter, got.id) || !HasItemFor(before, meter)
    requires if got.item.meter == meter then id == got.id && after == before
             else if Stuck(got) then after == before && Picks(after, meter, id)
             else id == got.id && after == before[got.id := got.item.(meter := meter)]
    ensures ItemSettled(after, meter, id)
  {
  }

  /** So does the item a creation ended with. */
  lemma CreatedIsSettled(before: Items, after: Items, want: ItemRow, id: string)
    requires want.id == want.item.meter && !HasItemFor(before, want.id) && id == want.id && Picks(after, want.id, id)
    ensures ItemSettled(after, want.id, id)
  {
  }

  /** A candidate decides what the failure-free call comes to. */
  lemma CandidateDecides(st: State, want: ItemRow, got: ItemRow)
    requires Candidate(st, want, got, true) && want.id == want.item.meter != ""
    ensures got.item.meter == want.id ==> EnsuredItem(st, want) == Some(ItemAt(st.items, got.id))
    ensures got.item.meter != want.id && !Stuck(got) ==>
              EnsuredItem(st, want) == Some(ItemAt(st.items[got.id := got.item.(meter := want.id)], got.id))
    ensures got.item.meter != want.id && Stuck(got) && HasItemFor(st.items, want.id) ==>
              (forall id | Picks(st.items, want.id, id) :: EnsuredItem(st, want) == Some(ItemAt(st.items, id)))
              && (!HasPick(st.items, want.id) ==> EnsuredItem(st, want) == None)
    ensures got.item.meter != want.id && Stuck(got) && !HasItemFor(st.items, want.id) ==>
              EnsuredItem(st, want) == if Storable(st.items, Renamed(want))
                                       then Some(ItemAt(st.items[want.id := Renamed(want).item], want.id)) else None
  {
    hide LiveForeign, DisambiguatedLabel;
    var items, meter := st.items, want.id;
    forall i, j | Picks(items, meter, i) && Picks(items, meter, j) ensures i == j {
      PicksOne(items, meter, i, j);
    }
    assert got.item.meter == meter ==> PointsAt(items, got.id, meter);
    assert got.item.meter == meter ==> items == items[got.id := items[got.id].(meter := meter)];
    assert Picks(items, meter, got.id) ==> HasPick(items, meter);
    if !HasItemFor(items, meter) {
      assert Picks(items[meter := Renamed(want).item], meter, meter);
    }
  }

  /** Reuses a found item, or creates one beside an immutable leftover. */
  method TakeProductItem(s: AmberfloServer, want: ItemRow, got: ItemRow, ghost guarded: bool) returns (r: Result<string>)
    requires want.id == want.item.meter && want.id != "" && want.item.name != "" && !want.item.lock.Deprecated?
    requires Candidate(s.state, want, got, guarded)
    modifies s`tick, s`state
    ensures s.tick >= old(s.tick)
    ensures s.state == old(s.state).(items := s.state.items)
    ensures r.Ok? ==> PointsAt(s.state.items, r.value, want.id)
    ensures ItemEdit(old(s.state), s.state.items, want.id, want.item.name, guarded)
    ensures r.Ok? && s.Steady(old(s.tick), s.tick) ==> ItemSettled(s.state.items, want.id, r.value)
    ensures forall id | ItemSettled(old(s.state.items), want.id, id) ::
              s.state == old(s.state) && (r.Ok? ==> r.value == id)
    ensures old(s.FailureFree()) && guarded ==> Reached(s.state.items, r) == EnsuredItem(old(s.state), want)
  {
    hide ItemEdit, ItemSettled, LiveForeign, ServePostItem, EnsuredItem;
    ghost var start := s.state;
    forall id | ItemSettled(start.items, want.id, id)
      ensures got.item.meter == want.id ==> got.id == id
      ensures got.item.meter != want.id ==>
                Stuck(got) && HasItemFor(start.items, want.id) && forall i | Picks(start.items, want.id, i) :: i == id
    {
      SettledFound(start.items, want.id, id, got);
    }
    if guarded {
      CandidateDecides(start, want, got);
    }
    var reused := ReuseProductItem(s, got, want.id);
    RetargetIsEdit(start, s.state.items, got, want.id, want.item.name, guarded);
    if reused.Err? {
      return Err(reused.error);
    }
    if reused.value.Some? {
      if s.Steady(old(s.tick), s.tick) {
        ReusedIsSettled(start.items, s.state.items, want.id, got, reused.value.value);
      }
      return Ok(reused.value.value);
    }
    var row := ItemRow(want.id, want.item.(name := DisambiguatedLabel(want.item.name, want.id)));
    ghost var middle := s.state.items;
    r := CreateProductItem(s, row);
    CreationIsEdit(start, middle, s.state.items, row, want.item.name, guarded);
    if r.Ok? && s.Steady(old(s.tick), s.tick) {
      CreatedIsSettled(middle, s.state.items, row, r.value);
    }
  }

  /** No candidate: the failure-free call creates the wanted item, or fails. */
  lemma NoCandidateDecides(st: State, want: ItemRow)
    ensures !Searchable(st, want) ==> EnsuredItem(st, want) == None
    ensures want.id !in st.items && !HasItemFor(st.items, want.id) && !HasItemNamed(st.items, want.item.name) ==>
              EnsuredItem(st, want) == Some(ItemAt(st.items[want.id := want.item], want.id)) && Storable(st.items, want)
  {
    hide LiveForeign, DisambiguatedLabel;
    assert forall i, j | !SharedItemName(st.items, want.item.name) && i in st.items && j in st.items
                         && st.items[i].name == want.item.name == st.items[j].name :: i == j;
  }

  method EnsureProductItem(s: AmberfloServer, want: ItemRow) returns (r: Result<string>)
    requires want.id == want.item.meter && want.id != "" && want.item.name != "" && !want.item.lock.Deprecated?
    modifies s`tick, s`state
    ensures s.tick > old(s.tick)
    ensures s.state == old(s.state).(items := s.state.items)
    // The answer names an item that points at the meter, whichever branch was taken.
    ensures r.Ok? ==> PointsAt(s.state.items, r.value, want.id)
    ensures ItemEdit(old(s.state), s.state.items, want.id, want.item.name, s.NoneRefused(old(s.tick), s.tick))
    // Unless a request was refused or cut off, the item is settled from here on, ...
    ensures r.Ok? && s.Steady(old(s.tick), s.tick) ==> ItemSettled(s.state.items, want.id, r.value)
    // ... and whatever goes wrong, a settled item is left alone and no other one is taken.
    ensures forall id | ItemSettled(old(s.state.items), want.id, id) ::
              s.state == old(s.state) && (r.Ok? ==> r.value == id)
    // Exactly when a failure-free call succeeds, and with what.
    ensures old(s.FailureFree()) ==> Reached(s.state.items, r) == EnsuredItem(old(s.state), want)
  {
    hide ItemEdit, ItemSettled, LiveForeign, ServePostItem, EnsuredItem, Searchable, Storable;
    ghost var start := s.state;
    forall id | ItemSettled(start.items, want.id, id)
      ensures HasItemFor(start.items, want.id)
    {
      SettledReadable(start.items, want.id, id);
    }
    NothingIsEdit(start, want.id, want.item.name, true);
    NothingIsEdit(start, want.id, want.item.name, false);
    NoCandidateDecides(start, want);
    var found := FindProductItem(s, want);
    ghost var guarded := s.NoneRefused(old(s.tick), s.tick);
    if found.Err? {
      return Err(found.error);
    }
    if found.value.Some? {
      r := TakeProductItem(s, want, found.value.value, guarded);
      LooserEdit(start, s.state.items, want.id, want.item.name, guarded, s.NoneRefused(old(s.tick), s.tick));
      return;
    }
    r := CreateProductItem(s, want);
    CreationIsEdit(start, start.items, s.state.items, want, want.item.name, s.NoneRefused(old(s.tick), s.tick));
    if r.Ok? {
      CreatedIsSettled(start.items, s.state.items, want, r.value);
    }
  }

  /** What a failure-free success means: an item on the meter, no edit beyond the allowed ones, and a
      second call that finds the same item and changes nothing. */
  lemma EnsuredItemSettles(st: State, want: ItemRow)
    requires want.id == want.item.meter && want.id != "" && want.item.name != ""
    requires EnsuredItem(st, want).Some?
    ensures var got := EnsuredItem(st, want).value;
      && PointsAt(got.items, got.id, want.id) && ItemSettled(got.items, want.id, got.id)
      && ItemEdit(st, got.items, want.id, want.item.name, true)
  {
    hide LiveForeign, DisambiguatedLabel;
    var got := EnsuredItem(st, want).value;
    assert !HasItemFor(st.items, want.id) ==> Picks(got.items, want.id, got.id);
  }

  lemma SettledIsEnsured(st: State, want: ItemRow, id: string)
    requires ItemSettled(st.items, want.id, id)
    ensures EnsuredItem(st, want) == Some(ItemAt(st.items, id))
  {
    hide LiveForeign, DisambiguatedLabel;
    SettledReadable(st.items, want.id, id);
    if !PointsAt(st.items, want.id, want.id) {
      assert HasPick(st.items, want.id);
      forall i | Picks(st.items, want.id, i) ensures i == id {
        PicksOne(st.items, want.id, i, id);
      }
    } else {
      assert st.items == st.items[want.id := st.items[want.id].(meter := want.id)];
    }
  }

  lemma SettledReadable(items: Items, meter: string, id: string)
    requires ItemSettled(items, meter, id)
    ensures HasItemFor(items, meter) && (meter in items || Picks(items, meter, id))
  {
  }
}
