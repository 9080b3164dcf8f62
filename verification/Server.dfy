/** The Amberflo account as the client sees it: meters, product items, item prices and plans,
    with unique names and labels and the one-way lockingStatus. */
module Server {
  import opened Naming
  import opened Pricing
  import opened Results

  datatype Lock = Unset | Open | CloseToChanges | CloseToDeletions | Deprecated

  /** open may go anywhere, a closed entity only to deprecated, a deprecated one nowhere. */
  predicate TransitionAllowed(from: Lock, to: Lock) {
    from == to
    || from.Unset? || from.Open?
    || ((from.CloseToChanges? || from.CloseToDeletions?) && to.Deprecated?)
  }

  datatype Meter = Meter(
    name: string, title: string, meterType: string, aggregation: seq<string>,
    unit: string, dimensions: seq<string>, useInBilling: bool, lock: Lock)

  datatype Item = Item(name: string, meter: string, product: string, lock: Lock)

  /** A meter with its server-assigned id; id 0 stands for a record without an id. */
  datatype MeterRow = MeterRow(id: nat, meter: Meter)

  datatype ItemRow = ItemRow(id: string, item: Item)

  /** The price of one product item in one plan, with its price machine. */
  datatype Price = Price(item: string, name: string, machine: Machine, lock: Lock)

  datatype Fee = Fee(name: string, cost: real, oneTime: bool)

  /** One usage price of the generator that makes a plan visible in the pricing UI. */
  datatype PriceGenerator = PriceGenerator(item: string, priceId: string, name: string, pricing: Generator)

  datatype PlanGenerator = PlanGenerator(
    kind: string, name: string, description: string, prices: seq<PriceGenerator>, fees: map<string, Fee>)

  datatype Plan = Plan(
    name: string, product: string, description: string, currency: string, kind: string, lock: Lock,
    priceIds: map<string, string>, fees: map<string, Fee>, generator: Option<PlanGenerator>, isDefault: Option<bool>)

  type Meters = map<nat, Meter>

  type Items = map<string, Item>

  type Prices = map<string, Price>

  type Plans = map<string, Plan>

  predicate HasMeter(meters: Meters, name: string) {
    exists id :: id in meters && meters[id].name == name
  }

  predicate HasTitle(meters: Meters, title: string) {
    exists id :: id in meters && meters[id].title == title
  }

  predicate HasItemNamed(items: Items, name: string) {
    exists id :: id in items && items[id].name == name
  }

  predicate HasItemFor(items: Items, meter: string) {
    exists id :: id in items && items[id].meter == meter
  }

  /** hiddenTitles are labels that POST still rejects although no meter lists them. */
  datatype State = State(
    meters: Meters, nextId: nat, items: Items, hiddenTitles: set<string>, prices: Prices, plans: Plans)
  {
    ghost predicate Valid() {
      && nextId > 0
      && (forall id | id in meters :: id < nextId)
      && (forall i, j | i in meters && j in meters && meters[i].name == meters[j].name :: i == j)
    }
  }

  // ---- endpoints ----------------------------------------------------------

  function ServePostMeter(st: State, m: Meter): (State, Result<MeterRow>) {
    if m.name == "" then (st, Err(Permanent(BadRequest)))
    else if HasMeter(st.meters, m.name) then (st, Err(Permanent(NameTaken)))
    else if m.title != "" && (HasTitle(st.meters, m.title) || m.title in st.hiddenTitles) then
      (st, Err(Permanent(LabelTaken)))
    else if m.title != "" && m.useInBilling && HasItemNamed(st.items, m.title) then
      (st, Err(Permanent(LabelTaken)))
    else
      var stored := if m.lock.Unset? then m.(lock := Open) else m;
      (st.(meters := st.meters[st.nextId := stored], nextId := st.nextId + 1), Ok(MeterRow(st.nextId, stored)))
  }

  function ServePutMeter(st: State, row: MeterRow): (State, Result<MeterRow>) {
    var id, m := row.id, row.meter;
    if m.name == "" then (st, Err(Permanent(BadRequest)))
    else if id == 0 || id !in st.meters then
      (st, Err(Permanent(if HasMeter(st.meters, m.name) then NameTaken else NoSuchEntity)))
    else if !TransitionAllowed(st.meters[id].lock, m.lock) then (st, Err(Permanent(Locked)))
    else if m.name != st.meters[id].name && (!st.meters[id].lock.Open? || HasMeter(st.meters, m.name)) then
      (st, Err(Permanent(Locked)))
    else (st.(meters := st.meters[id := m]), Ok(row))
  }

  /** Deleting an unknown id succeeds and does nothing. */
  function ServeDeleteMeter(st: State, id: nat): (State, Result<()>) {
    if id !in st.meters then (st, Ok(()))
    else if !st.meters[id].lock.Deprecated? then (st, Err(Permanent(Locked)))
    else (st.(meters := st.meters - {id}), Ok(()))
  }

  /** Creates an item or replaces it whole; a deprecated item accepts no change at all. */
  function ServePostItem(st: State, row: ItemRow): (State, Result<()>) {
    var id, item := row.id, row.item;
    if id == "" || item.name == "" then (st, Err(Permanent(BadRequest)))
    else if id in st.items then
      if st.items[id].lock.Deprecated? then (st, Err(Permanent(Locked)))
      else (st.(items := st.items[id := item]), Ok(()))
    else if HasItemNamed(st.items, item.name) then (st, Err(Permanent(NameTaken)))
    else if HasItemFor(st.items, item.meter) then (st, Err(Permanent(SameMeter)))
    else (st.(items := st.items[id := item]), Ok(()))
  }

  /** A stored price keeps its name, and no two prices share one. */
  function ServePostPrice(st: State, id: string, price: Price): (State, Result<()>) {
    if id == "" then (st, Err(Permanent(BadRequest)))
    else if id in st.prices && st.prices[id].name != "" && st.prices[id].name != price.name then
      (st, Err(Permanent(PriceNameTaken)))
    else if exists k :: k in st.prices && k != id && st.prices[k].name == price.name then
      (st, Err(Permanent(PriceNameTaken)))
    else (st.(prices := st.prices[id := price]), Ok(()))
  }

  function ServePostPlan(st: State, id: string, plan: Plan): (State, Result<()>) {
    if id == "" || !(plan.priceIds.Keys <= st.items.Keys) then (st, Err(Permanent(BadRequest)))
    else (st.(plans := st.plans[id := plan]), Ok(()))
  }

  function ServeDeletePlan(st: State, id: string): (State, Result<()>) {
    if id !in st.plans then (st, Err(Permanent(NoSuchEntity)))
    else if !st.plans[id].lock.Deprecated? then (st, Err(Permanent(Locked)))
    else (st.(plans := st.plans - {id}), Ok(()))
  }

  // The same requests, each with its own fate.

  function SettlePostMeter(f: Fault, st: State, m: Meter): (State, Result<MeterRow>) {
    Settle(f, st, (x: State) => ServePostMeter(x, m))
  }

  function SettlePutMeter(f: Fault, st: State, row: MeterRow): (State, Result<MeterRow>) {
    Settle(f, st, (x: State) => ServePutMeter(x, row))
  }

  function SettleDeleteMeter(f: Fault, st: State, id: nat): (State, Result<()>) {
    Settle(f, st, (x: State) => ServeDeleteMeter(x, id))
  }

  function SettlePostItem(f: Fault, st: State, row: ItemRow): (State, Result<()>) {
    Settle(f, st, (x: State) => ServePostItem(x, row))
  }

  function SettlePostPrice(f: Fault, st: State, id: string, price: Price): (State, Result<()>) {
    Settle(f, st, (x: State) => ServePostPrice(x, id, price))
  }

  function SettlePostPlan(f: Fault, st: State, id: string, plan: Plan): (State, Result<()>) {
    Settle(f, st, (x: State) => ServePostPlan(x, id, plan))
  }

  function SettleDeletePlan(f: Fault, st: State, id: string): (State, Result<()>) {
    Settle(f, st, (x: State) => ServeDeletePlan(x, id))
  }

  /** The account reached over a network whose every request may go wrong in its own way. */
  class AmberfloServer {
    const faults: nat -> Fault
    var tick: nat
    var state: State
    /** POST, PUT and DELETE requests on meters sent so far, whatever became of them. */
    var meterWrites: nat
    /** POST requests on product plans sent so far. */
    var planPosts: nat

    /** No request from the current one on goes wrong. */
    ghost predicate FailureFree()
      reads this
    {
      forall k | k >= tick :: faults(k).Delivered?
    }

    /** None of the requests numbered from..to-1 was refused with a spurious permanent error. */
    ghost predicate NoneRefused(from: nat, to: nat) {
      forall k | from <= k < to :: !RefusedBy(faults(k))
    }

    /** Requests from..to-1 were answered, or ran out of retries; none was refused or cut off. */
    ghost predicate Steady(from: nat, to: nat) {
      forall k | from <= k < to :: Answered(faults(k)) || faults(k).glitch.Timeout?
    }

    /** A read: either the server's current state answers it, or an error does. */
    method Read() returns (r: Result<()>)
      modifies this`tick
      ensures tick == old(tick) + 1
      ensures r == if Answered(faults(old(tick))) then Ok(()) else Err(GlitchFailure(faults(old(tick)).glitch))
    {
      var f := faults(tick);
      tick := tick + 1;
      r := if Answered(f) then Ok(()) else Err(GlitchFailure(f.glitch));
    }

    method PostMeter(m: Meter) returns (r: Result<MeterRow>)
      modifies this
      ensures tick == old(tick) + 1 && meterWrites == old(meterWrites) + 1
      ensures (state, r) == SettlePostMeter(faults(old(tick)), old(state), m)
    {
      var (st, answer) := SettlePostMeter(faults(tick), state, m);
      tick, meterWrites, state, r := tick + 1, meterWrites + 1, st, answer;
    }

    method PutMeter(row: MeterRow) returns (r: Result<MeterRow>)
      modifies this
      ensures tick == old(tick) + 1 && meterWrites == old(meterWrites) + 1
      ensures (state, r) == SettlePutMeter(faults(old(tick)), old(state), row)
    {
      var (st, answer) := SettlePutMeter(faults(tick), state, row);
      tick, meterWrites, state, r := tick + 1, meterWrites + 1, st, answer;
    }

    method DeleteMeter(id: nat) returns (r: Result<()>)
      modifies this
      ensures tick == old(tick) + 1 && meterWrites == old(meterWrites) + 1
      ensures (state, r) == SettleDeleteMeter(faults(old(tick)), old(state), id)
    {
      var (st, answer) := SettleDeleteMeter(faults(tick), state, id);
      tick, meterWrites, state, r := tick + 1, meterWrites + 1, st, answer;
    }

    method PostItem(row: ItemRow) returns (r: Result<()>)
      modifies this`tick, this`state
      ensures tick == old(tick) + 1
      ensures (state, r) == SettlePostItem(faults(old(tick)), old(state), row)
    {
      var (st, answer) := SettlePostItem(faults(tick), state, row);
      tick, state, r := tick + 1, st, answer;
    }

    method PostPrice(id: string, price: Price) returns (r: Result<()>)
      modifies this`tick, this`state
      ensures tick == old(tick) + 1
      ensures (state, r) == SettlePostPrice(faults(old(tick)), old(state), id, price)
    {
      var (st, answer) := SettlePostPrice(faults(tick), state, id, price);
      tick, state, r := tick + 1, st, answer;
    }

    method PostPlan(id: string, plan: Plan) returns (r: Result<()>)
      modifies this`tick, this`state, this`planPosts
      ensures tick == old(tick) + 1 && planPosts == old(planPosts) + 1
      ensures (state, r) == SettlePostPlan(faults(old(tick)), old(state), id, plan)
    {
      var (st, answer) := SettlePostPlan(faults(tick), state, id, plan);
      tick, planPosts, state, r := tick + 1, planPosts + 1, st, answer;
    }

    method DeletePlan(id: string) returns (r: Result<()>)
      modifies this`tick, this`state
      ensures tick == old(tick) + 1
      ensures (state, r) == SettleDeletePlan(faults(old(tick)), old(state), id)
    {
      var (st, answer) := SettleDeletePlan(faults(tick), state, id);
      tick, state, r := tick + 1, st, answer;
    }
  }
}
