/** Assigning customers to product plans: the swap of one plan for another, and its timing.
    The clock counts nanoseconds; assignments are stamped in whole seconds. */
module CustomerPlans {
  import opened Results

  const SECOND := 1_000_000_000
  const SKEW := 30
  const RETRY_SHIFT := 60

  /** end <= 0 means open-ended. */
  datatype Assignment = Assignment(product: string, start: int, end: int)

  /** One customer's assignments by product plan id. */
  type Assignments = map<string, Assignment>

  function Unix(ns: int): int { ns / SECOND }

  predicate Active(a: Assignment, now: int) {
    a.end <= 0 || a.end * SECOND > now
  }

  predicate OpenEnded(a: Assignment) { a.end <= 0 }

  /** The payload that ends an assignment at the clock reading `now`. */
  function Ended(a: Assignment, now: int): Assignment {
    Assignment(if a.product == "" then "1" else a.product,
               if a.start <= 0 then Unix(now) else a.start,
               Unix(now) + SKEW)
  }

  /** The payload of the one retry after "end time can't be in the past". */
  function Shifted(a: Assignment): Assignment {
    if a.end > 0 then a.(end := a.end + RETRY_SHIFT) else a.(start := a.start + RETRY_SHIFT)
  }

  function Listed(plans: map<string, Assignments>, customer: string): Assignments {
    if customer in plans then plans[customer] else map[]
  }

  /** The customer-pricing part of Amberflo, with the provider's clock beside it. */
  class CustomerPricing {
    const faults: nat -> Fault
    /** Whether the server finds the k-th request's time to be in the past, by its own clock. */
    const rejects: nat -> bool
    const readings: nat -> int
    var tick: nat
    var clockReads: nat
    var posts: nat
    var plans: map<string, Assignments>

    ghost predicate ClockRuns() {
      (forall i | 0 <= i :: readings(i) >= 0) && forall i, j | 0 <= i <= j :: readings(i) <= readings(j)
    }

    function Of(customer: string): Assignments
      reads this
    {
      Listed(plans, customer)
    }

    /** No request from the current one on goes wrong or is found to be in the past. */
    ghost predicate FailureFree()
      reads this
    {
      forall k | k >= tick :: faults(k).Delivered? && !rejects(k)
    }

    ghost predicate NoneRejected(from: nat, to: nat) {
      forall k | from <= k < to :: !rejects(k)
    }

    method Now() returns (now: int)
      modifies this`clockReads
      ensures clockReads == old(clockReads) + 1 && now == readings(old(clockReads))
    {
      now := readings(clockReads);
      clockReads := clockReads + 1;
    }

    method List(customer: string) returns (r: Result<Assignments>)
      modifies this`tick
      ensures tick == old(tick) + 1
      ensures r.Ok? ==> r.value == Of(customer)
      ensures faults(old(tick)).Delivered? ==> r.Ok?
    {
      var f := faults(tick);
      tick := tick + 1;
      r := if Answered(f) then Ok(Of(customer)) else Err(GlitchFailure(f.glitch));
    }

    /** Stores the assignment in place of the customer's earlier one to the same plan. */
    method Post(customer: string, plan: string, a: Assignment) returns (r: Result<()>)
      modifies this`tick, this`plans, this`posts
      ensures tick == old(tick) + 1 && posts == old(posts) + 1
      ensures plans == old(plans)
              || (!rejects(old(tick)) && plans == old(plans)[customer := old(Of(customer))[plan := a]])
      ensures r.Ok? ==> plan in Of(customer) && Of(customer)[plan] == a && !rejects(old(tick))
      ensures r == Err(Permanent(EndInPast)) ==> rejects(old(tick)) && plans == old(plans)
      ensures faults(old(tick)).Delivered? && !rejects(old(tick)) ==> r.Ok?
    {
      var f, rejected := faults(tick), rejects(tick);
      tick, posts := tick + 1, posts + 1;
      if !f.Dropped? && !rejected {
        plans := plans[customer := Of(customer)[plan := a]];
      }
      r := if !Answered(f) then Err(GlitchFailure(f.glitch)) else if rejected then Err(Permanent(EndInPast)) else Ok(());
    }
  }

  /** Other customers keep their assignments. */
  ghost predicate OthersUntouched(before: map<string, Assignments>, after: map<string, Assignments>, customer: string) {
    forall c | c != customer :: Listed(after, c) == Listed(before, c)
  }

  /** Nothing but the customer's assignment to one plan differs. */
  ghost predicate OnlyPlan(before: map<string, Assignments>, after: map<string, Assignments>, customer: string,
                           plan: string) {
    && OthersUntouched(before, after, customer)
    && Listed(after, customer) - {plan} == Listed(before, customer) - {plan}
  }

  method PostCustomerPlan(s: CustomerPricing, customer: string, plan: string, payload: Assignment) returns (r: Result<()>)
    modifies s`tick, s`plans, s`posts
    ensures s.tick >= old(s.tick) + 1
    ensures OnlyPlan(old(s.plans), s.plans, customer, plan)
    ensures s.plans == old(s.plans)
            || (plan in s.Of(customer)
                && (s.Of(customer)[plan] == payload
                    || (s.rejects(old(s.tick)) && s.Of(customer)[plan] == Shifted(payload))))
    ensures r.Ok? ==> plan in s.Of(customer)
                      && s.Of(customer)[plan] in {payload, Shifted(payload)}
    ensures r.Ok? && !s.rejects(old(s.tick)) ==> s.Of(customer)[plan] == payload
    ensures old(s.FailureFree()) ==> r.Ok?
  {
    r := s.Post(customer, plan, payload);
    if r == Err(Permanent(EndInPast)) {
      r := s.Post(customer, plan, Shifted(payload));
    }
  }

  // ---- cancellation -------------------------------------------------------

  /** An active assignment was ended as of the reading `now`, 60 s later if that was retried. */
  predicate EndedAt(was: Assignment, ended: Assignment, now: int, rejected: bool) {
    ended == Ended(was, now) || (rejected && ended == Shifted(Ended(was, now)))
  }

  method CancelCustomerPlan(s: CustomerPricing, customer: string, plan: string) returns (r: Result<()>)
    requires s.ClockRuns()
    modifies s`tick, s`clockReads, s`plans, s`posts
    ensures s.tick >= old(s.tick) && old(s.clockReads) <= s.clockReads <= old(s.clockReads) + 1
    ensures OnlyPlan(old(s.plans), s.plans, customer, plan)
    ensures s.plans != old(s.plans) ==>
              && s.clockReads > old(s.clockReads) && plan in old(s.Of(customer)) && plan in s.Of(customer)
              && Active(old(s.Of(customer))[plan], s.readings(old(s.clockReads)))
              && EndedAt(old(s.Of(customer))[plan], s.Of(customer)[plan], s.readings(old(s.clockReads)),
                         !s.NoneRejected(old(s.tick), s.tick))
    // Success: the plan is not assigned, has just been ended, or had ended by then.
    ensures r.Ok? && plan in old(s.Of(customer)) ==>
              && s.clockReads > old(s.clockReads) && plan in s.Of(customer) && !OpenEnded(s.Of(customer)[plan])
              && if Active(old(s.Of(customer))[plan], s.readings(old(s.clockReads))) then
                   EndedAt(old(s.Of(customer))[plan], s.Of(customer)[plan], s.readings(old(s.clockReads)),
                           !s.NoneRejected(old(s.tick), s.tick))
                 else s.Of(customer)[plan] == old(s.Of(customer))[plan]
    ensures r.Ok? && plan !in old(s.Of(customer)) ==> plan !in s.Of(customer)
    ensures old(s.FailureFree()) && customer != "" && plan != "" ==> r.Ok?
  {
    if customer == "" || plan == "" {
      return Err(Permanent(BadRequest));
    }
    var now := s.Now();
    var existing := s.List(customer);
    if existing.Err? {
      return Err(existing.error);
    }
    if plan !in existing.value {
      return Ok(());
    }
    var a := existing.value[plan];
    if !Active(a, now) {
      return Ok(());
    }
    r := PostCustomerPlan(s, customer, plan, Ended(a, now));
  }

  // ---- the swap -----------------------------------------------------------

  /** Start of a fresh assignment: the requested time, or 30 s after the reading. */
  function FreshStart(startTime: Option<int>, now: int): int {
    if startTime.Some? then Unix(startTime.value) else Unix(now + SKEW * SECOND)
  }

  /** What became of another plan's assignment between the readings `now` and `last`. */
  ghost predicate SwappedOut(was: Assignment, ended: Assignment, now: int, last: int, rejected: bool) {
    if !Active(was, now) then ended == was
    else (ended == was && !Active(was, last))
         || exists at :: now <= at <= last && Active(was, at) && EndedAt(was, ended, at, rejected)
  }

  ghost predicate MaybeSwapped(was: Assignment, ended: Assignment, now: int, last: int, rejected: bool) {
    ended == was || (Active(was, now) && SwappedOut(was, ended, now, last, rejected))
  }

  /** All other plans are ended, and the wanted one holds: the assignment that was active before,
      or a fresh one. */
  ghost predicate SwapDone(before: Assignments, after: Assignments, plan: string, startTime: Option<int>,
                           now: int, last: int, rejected: bool) {
    && after.Keys == before.Keys + {plan}
    && (forall p | p in before && p != plan :: SwappedOut(before[p], after[p], now, last, rejected))
    && if plan in before && Active(before[plan], now) then after[plan] == before[plan]
       else OpenEnded(after[plan])
            && (after[plan].start == FreshStart(startTime, now)
                || (rejected && after[plan].start == FreshStart(startTime, now) + RETRY_SHIFT))
  }

  lemma SwappedLater(was: Assignment, ended: Assignment, now: int, last: int, later: int, rejected: bool, still: bool)
    requires now <= last <= later && (rejected ==> still)
    ensures SwappedOut(was, ended, now, last, rejected) ==> SwappedOut(was, ended, now, later, still)
    ensures MaybeSwapped(was, ended, now, last, rejected) ==> MaybeSwapped(was, ended, now, later, still)
  {
  }

  /** The loop over the listed assignments: `todo` is what it has not looked at yet. */
  ghost predicate Swapping(before: Assignments, after: Assignments, plan: string, todo: set<string>,
                           now: int, last: int, rejected: bool) {
    && after.Keys == before.Keys
    && (plan in before ==> after[plan] == before[plan])
    && forall p | p in before && p != plan ::
         if p in todo then after[p] == before[p] else SwappedOut(before[p], after[p], now, last, rejected)
  }

  lemma SameElsewhere(a: Assignments, b: Assignments, p: string)
    requires a - {p} == b - {p}
    ensures forall q | q != p :: (q in a <==> q in b) && (q in a ==> b[q] == a[q])
    ensures p in a && p in b ==> a.Keys == b.Keys
  {
    forall q | q != p ensures (q in a <==> q in b) && (q in a ==> b[q] == a[q]) {
      assert q in a <==> q in a - {p};
      assert q in b <==> q in b - {p};
    }
  }

  /** A cancellation as of the reading `at` is a swap. */
  lemma CancelSwaps(was: Assignment, ended: Assignment, now: int, at: int, rejected: bool)
    requires now <= at && Active(was, now)
    ensures (if Active(was, at) then EndedAt(was, ended, at, rejected) else ended == was) ==>
              SwappedOut(was, ended, now, at, rejected)
    ensures ended == was || (Active(was, at) && EndedAt(was, ended, at, rejected)) ==>
              MaybeSwapped(was, ended, now, at, rejected)
  {
  }

  /** Whatever the request for assignment p did, the others are where the loop left them. */
  lemma SwappingCutShort(before: Assignments, middle: Assignments, after: Assignments, plan: string,
                         todo: set<string>, p: string,
                         now: int, last: int, later: int, rejected: bool, still: bool)
    requires Swapping(before, middle, plan, todo, now, last, rejected) && now <= last <= later && (rejected ==> still)
    requires after - {p} == middle - {p}
    requires p in before && p != plan ==> p in after && MaybeSwapped(before[p], after[p], now, later, still)
    ensures forall q | q in before && q != plan :: q in after && MaybeSwapped(before[q], after[q], now, later, still)
    ensures p in before || p == plan ==> after.Keys <= before.Keys + {plan}
  {
    SameElsewhere(middle, after, p);
    forall q | q in before && q != plan ensures q in after && MaybeSwapped(before[q], after[q], now, later, still) {
      if q != p {
        SwappedLater(before[q], middle[q], now, last, later, rejected, still);
      }
    }
  }

  lemma SwappingStep(before: Assignments, middle: Assignments, after: Assignments, plan: string, todo: set<string>,
                     p: string,
                     now: int, last: int, later: int, rejected: bool, still: bool)
    requires Swapping(before, middle, plan, todo, now, last, rejected) && now <= last <= later && (rejected ==> still)
    requires p in before && p in todo && p != plan && p in after && after - {p} == middle - {p}
    requires SwappedOut(before[p], after[p], now, later, still)
    ensures Swapping(before, after, plan, todo - {p}, now, later, still)
  {
    SameElsewhere(middle, after, p);
    forall q | q in before && q != plan && q !in todo - {p} ensures SwappedOut(before[q], after[q], now, later, still) {
      if q != p {
        SwappedLater(before[q], middle[q], now, last, later, rejected, still);
      }
    }
  }

  lemma SwapComplete(before: Assignments, middle: Assignments, after: Assignments, plan: string, startTime: Option<int>,
                     now: int, last: int, rejected: bool, still: bool)
    requires Swapping(before, middle, plan, {}, now, last, rejected) && now <= last && (rejected ==> still)
    requires after - {plan} == middle - {plan} && !(plan in before && Active(before[plan], now))
    requires plan in after && OpenEnded(after[plan])
    requires after[plan].start == FreshStart(startTime, now)
             || (still && after[plan].start == FreshStart(startTime, now) + RETRY_SHIFT)
    ensures SwapDone(before, after, plan, startTime, now, last, still) && plan in after
  {
    SameElsewhere(middle, after, plan);
    forall p | p in before && p != plan ensures SwappedOut(before[p], after[p], now, last, still) {
      SwappedLater(before[p], middle[p], now, last, last, rejected, still);
    }
  }

  /** Whether every active assignment is to the wanted plan. */
  ghost predicate NoStrays(existing: Assignments, plan: string, now: int) {
    forall p | p in existing && p != plan :: !Active(existing[p], now)
  }

  ghost predicate SomeSwapped(before: Assignments, after: Assignments, plan: string, now: int, last: int,
                              rejected: bool) {
    after.Keys <= before.Keys + {plan}
    && forall p | p in before && p != plan :: p in after && MaybeSwapped(before[p], after[p], now, last, rejected)
  }

  /** Cancels one stray assignment, seen from the loop. */
  method CancelStray(s: CustomerPricing, customer: string, p: string, ghost existing: Assignments, ghost plan: string,
                     ghost todo: set<string>, ghost now: int, ghost from: nat)
      returns (r: Result<()>)
    requires s.ClockRuns() && s.clockReads > 0 && from <= s.tick && now <= s.readings(s.clockReads - 1)
    requires p in existing && p in todo && p != plan && Active(existing[p], now)
    requires Swapping(existing, s.Of(customer), plan, todo, now, s.readings(s.clockReads - 1),
                      !s.NoneRejected(from, s.tick))
    modifies s`tick, s`clockReads, s`plans, s`posts
    ensures s.tick >= old(s.tick) && s.clockReads >= old(s.clockReads)
    ensures OthersUntouched(old(s.plans), s.plans, customer)
    ensures r.Ok? ==>
              Swapping(existing, s.Of(customer), plan, todo - {p}, now, s.readings(s.clockReads - 1),
                       !s.NoneRejected(from, s.tick))
    ensures SomeSwapped(existing, s.Of(customer), plan, now, s.readings(s.clockReads - 1), !s.NoneRejected(from, s.tick))
    ensures old(s.FailureFree()) && customer != "" && p != "" ==> r.Ok? && s.FailureFree()
  {
    hide SwappedOut, MaybeSwapped, EndedAt;
    ghost var middle, last, rejected := s.Of(customer), s.readings(s.clockReads - 1), !s.NoneRejected(from, s.tick);
    r := CancelCustomerPlan(s, customer, p);
    ghost var later, still := s.readings(s.clockReads - 1), !s.NoneRejected(from, s.tick);
    SameElsewhere(middle, s.Of(customer), p);
    CancelSwaps(existing[p], s.Of(customer)[p], now, later, !s.NoneRejected(old(s.tick), s.tick));
    SwappedLater(existing[p], s.Of(customer)[p], now, later, later, !s.NoneRejected(old(s.tick), s.tick), still);
    SwappingCutShort(existing, middle, s.Of(customer), plan, todo, p, now, last, later, rejected, still);
    if r.Ok? {
      SwappingStep(existing, middle, s.Of(customer), plan, todo, p, now, last, later, rejected, still);
    }
  }

  /** Cancels every active assignment to another plan; answers with the active one to this plan. */
  method CancelOthers(s: CustomerPricing, customer: string, plan: string, existing: Assignments, now: int,
                      ghost from: nat)
      returns (r: Result<Option<Assignment>>)
    requires s.ClockRuns() && s.clockReads > 0 && from <= s.tick && now == s.readings(s.clockReads - 1)
    requires existing == s.Of(customer)
    modifies s`tick, s`clockReads, s`plans, s`posts
    ensures s.tick >= old(s.tick) && s.clockReads >= old(s.clockReads)
    ensures OthersUntouched(old(s.plans), s.plans, customer)
    ensures SomeSwapped(existing, s.Of(customer), plan, now, s.readings(s.clockReads - 1), !s.NoneRejected(from, s.tick))
    ensures r.Ok? ==>
              && Swapping(existing, s.Of(customer), plan, {}, now, s.readings(s.clockReads - 1), !s.NoneRejected(from, s.tick))
              && r.value == if plan in existing && Active(existing[plan], now) then Some(existing[plan]) else None
    ensures NoStrays(existing, plan, now) ==> s.posts == old(s.posts) && s.plans == old(s.plans)
    ensures old(s.FailureFree()) && customer != "" && "" !in existing ==> r.Ok? && s.FailureFree()
  {
    hide SwappedOut, MaybeSwapped, Swapping, SomeSwapped;
    var activeMatch: Option<Assignment> := None;
    var todo := existing.Keys;
    SwappingStart(existing, plan, now, !s.NoneRejected(from, s.tick));
    while todo != {}
      invariant todo <= existing.Keys
      invariant s.tick >= old(s.tick) && s.clockReads >= old(s.clockReads)
      invariant OthersUntouched(old(s.plans), s.plans, customer)
      invariant Swapping(existing, s.Of(customer), plan, todo, now, s.readings(s.clockReads - 1),
                         !s.NoneRejected(from, s.tick))
      invariant SomeSwapped(existing, s.Of(customer), plan, now, s.readings(s.clockReads - 1),
                            !s.NoneRejected(from, s.tick))
      invariant activeMatch ==
                if plan in existing && plan !in todo && Active(existing[plan], now) then Some(existing[plan]) else None
      invariant NoStrays(existing, plan, now) ==> s.posts == old(s.posts) && s.plans == old(s.plans)
      invariant old(s.FailureFree()) && customer != "" && "" !in existing ==> s.FailureFree()
      decreases todo
    {
      var p :| p in todo;
      var a := existing[p];
      if !Active(a, now) || p == plan {
        SwappingSkip(existing, s.Of(customer), plan, todo, p, now, s.readings(s.clockReads - 1),
                     !s.NoneRejected(from, s.tick));
        if Active(a, now) {
          activeMatch := Some(a);
        }
      } else {
        var cancelled := CancelStray(s, customer, p, existing, plan, todo, now, from);
        if cancelled.Err? {
          return Err(cancelled.error);
        }
      }
      todo := todo - {p};
    }
    return Ok(activeMatch);
  }

  lemma SwappingStart(existing: Assignments, plan: string, now: int, rejected: bool)
    ensures Swapping(existing, existing, plan, existing.Keys, now, now, rejected)
    ensures SomeSwapped(existing, existing, plan, now, now, rejected)
  {
  }

  lemma SwappingSkip(before: Assignments, after: Assignments, plan: string, todo: set<string>, p: string,
                     now: int, last: int, rejected: bool)
    requires Swapping(before, after, plan, todo, now, last, rejected) && p in before && p in todo
    requires !Active(before[p], now) || p == plan
    ensures Swapping(before, after, plan, todo - {p}, now, last, rejected)
  {
  }

  /** Starts the wanted plan once the strays are cancelled. */
  method AssignFresh(s: CustomerPricing, customer: string, plan: string, product: string, start: int,
                     ghost existing: Assignments, ghost startTime: Option<int>, ghost now: int, ghost from: nat)
      returns (r: Result<Assignment>)
    requires s.ClockRuns() && s.clockReads > 0 && from <= s.tick && now <= s.readings(s.clockReads - 1)
    requires Unix(start) == FreshStart(startTime, now) && !(plan in existing && Active(existing[plan], now))
    requires Swapping(existing, s.Of(customer), plan, {}, now, s.readings(s.clockReads - 1),
                      !s.NoneRejected(from, s.tick))
    modifies s`tick, s`plans, s`posts
    ensures s.tick >= old(s.tick)
    ensures OthersUntouched(old(s.plans), s.plans, customer)
    ensures SomeSwapped(existing, s.Of(customer), plan, now, s.readings(s.clockReads - 1), !s.NoneRejected(from, s.tick))
    ensures r.Ok? ==>
              SwapDone(existing, s.Of(customer), plan, startTime, now, s.readings(s.clockReads - 1),
                       !s.NoneRejected(from, s.tick))
              && r.value == s.Of(customer)[plan]
    ensures r.Ok? ==> r.value.product == if product == "" then "1" else product
    ensures old(s.FailureFree()) ==> r.Ok?
  {
    hide SwappedOut, MaybeSwapped, Swapping, SomeSwapped, SwapDone;
    ghost var middle, last, rejected := s.Of(customer), s.readings(s.clockReads - 1), !s.NoneRejected(from, s.tick);
    var payload := Assignment(if product == "" then "1" else product, Unix(start), 0);
    var posted := PostCustomerPlan(s, customer, plan, payload);
    ghost var still := !s.NoneRejected(from, s.tick);
    SwappingCutShort(existing, middle, s.Of(customer), plan, {}, plan, now, last, last, rejected, still);
    SomeSwappedIs(existing, s.Of(customer), plan, now, last, still);
    if posted.Err? {
      return Err(posted.error);
    }
    SwapComplete(existing, middle, s.Of(customer), plan, startTime, now, last, rejected, still);
    assert SwapDone(existing, s.Of(customer), plan, startTime, now, last, still);
    return Ok(s.Of(customer)[plan]);
  }

  method EnsureCustomerPlan(s: CustomerPricing, customer: string, plan: string, product: string, startTime: Option<int>)
      returns (r: Result<Assignment>)
    requires s.ClockRuns()
    modifies s`tick, s`clockReads, s`plans, s`posts
    ensures s.tick >= old(s.tick) && s.clockReads >= old(s.clockReads)
    ensures OthersUntouched(old(s.plans), s.plans, customer)
    ensures r.Ok? ==>
              && s.clockReads > old(s.clockReads)
              && SwapDone(old(s.Of(customer)), s.Of(customer), plan, startTime, s.readings(old(s.clockReads)),
                          s.readings(s.clockReads - 1), !s.NoneRejected(old(s.tick), s.tick))
              && r.value == s.Of(customer)[plan]
    ensures (r.Ok? && !(plan in old(s.Of(customer)) && Active(old(s.Of(customer))[plan], s.readings(old(s.clockReads))))) ==>
              r.value.product == if product == "" then "1" else product
    // A failed call has swapped out some of the others, and perhaps stored the fresh assignment.
    ensures s.plans != old(s.plans) ==>
              && s.clockReads > old(s.clockReads)
              && SomeSwapped(old(s.Of(customer)), s.Of(customer), plan, s.readings(old(s.clockReads)),
                             s.readings(s.clockReads - 1), !s.NoneRejected(old(s.tick), s.tick))
    // Nothing is posted once the wanted plan is the only active one.
    ensures (plan in old(s.Of(customer)) && Active(old(s.Of(customer))[plan], s.readings(old(s.clockReads)))
             && NoStrays(old(s.Of(customer)), plan, s.readings(old(s.clockReads)))) ==>
              s.posts == old(s.posts) && s.plans == old(s.plans)
    ensures old(s.FailureFree()) && customer != "" && plan != "" && "" !in old(s.Of(customer)) ==> r.Ok?
  {
    hide SwappedOut, MaybeSwapped, Swapping, SomeSwapped, SwapDone;
    if customer == "" || plan == "" {
      return Err(Permanent(BadRequest));
    }
    var now := s.Now();
    var start := if startTime.Some? then startTime.value else now + SKEW * SECOND;
    var listed := s.List(customer);
    if listed.Err? {
      return Err(listed.error);
    }
    var existing := listed.value;
    var activeMatch := CancelOthers(s, customer, plan, existing, now, old(s.tick));
    if activeMatch.Err? {
      return Err(activeMatch.error);
    }
    if activeMatch.value.Some? {
      SwapKept(existing, s.Of(customer), plan, startTime, now, s.readings(s.clockReads - 1),
               !s.NoneRejected(old(s.tick), s.tick));
      return Ok(activeMatch.value.value);
    }
    r := AssignFresh(s, customer, plan, product, start, existing, startTime, now, old(s.tick));
  }

  lemma SomeSwappedIs(before: Assignments, after: Assignments, plan: string, now: int, last: int, rejected: bool)
    requires after.Keys <= before.Keys + {plan}
    requires forall q | q in before && q != plan :: q in after && MaybeSwapped(before[q], after[q], now, last, rejected)
    ensures SomeSwapped(before, after, plan, now, last, rejected)
  {
  }

  lemma SwapKept(before: Assignments, after: Assignments, plan: string, startTime: Option<int>, now: int, last: int,
                 rejected: bool)
    requires Swapping(before, after, plan, {}, now, last, rejected) && plan in before && Active(before[plan], now)
    ensures SwapDone(before, after, plan, startTime, now, last, rejected) && after[plan] == before[plan]
  {
  }

  // ---- what a swap means for the customer ---------------------------------

  /** The second t is billed under the assignment. */
  predicate Covers(a: Assignment, t: int) {
    a.start <= t && (OpenEnded(a) || t < a.end)
  }

  /** After a swap no other plan is open-ended, and the wanted one is, unless an earlier assignment
      to it was already running out. */
  lemma OnlyWantedPlanOpenEnded(before: Assignments, after: Assignments, plan: string, startTime: Option<int>,
                                now: int, last: int, rejected: bool)
    requires SwapDone(before, after, plan, startTime, now, last, rejected) && now >= 0
    ensures plan in after && forall p | p in after && p != plan :: !OpenEnded(after[p])
    ensures OpenEnded(after[plan]) <==> !(plan in before && Active(before[plan], now) && !OpenEnded(before[plan]))
  {
  }

  /** The wanted plan is assigned already, so that assignment is the one that stays. */
  predicate Held(before: Assignments, plan: string, now: int) {
    plan in before && Active(before[plan], now)
  }

  /** The first second that a swap may leave the old assignment without. */
  function FirstEnd(was: Assignment, now: int): int {
    if OpenEnded(was) || (Active(was, now) && was.end >= Unix(now) + SKEW) then Unix(now) + SKEW else was.end
  }

  /** Where the assignment to the wanted plan starts, if its POST is not retried. */
  function StartsAt(before: Assignments, plan: string, startTime: Option<int>, now: int): int {
    if Held(before, plan, now) then before[plan].start else FreshStart(startTime, now)
  }

  /** From the old start onward every second is covered, except for a gap between the first end that
      the swap may give the old assignment and the start of the other one. */
  lemma SwapHasNoGap(before: Assignments, after: Assignments, plan: string, startTime: Option<int>, now: int, last: int,
                     rejected: bool, p: string, t: int)
    requires SwapDone(before, after, plan, startTime, now, last, rejected) && 0 <= now <= last
    requires p in before && p != plan && before[p].start > 0
    requires OpenEnded(after[plan]) && before[p].start <= t
    ensures Covers(after[p], t) || Covers(after[plan], t) || FirstEnd(before[p], now) <= t < after[plan].start
    ensures after[plan].start == StartsAt(before, plan, startTime, now)
            || (rejected && !Held(before, plan, now) && after[plan].start == FreshStart(startTime, now) + RETRY_SHIFT)
  {
  }

  /** Every second from the old start on is billed to one of the two plans. */
  ghost predicate Continuous(was: Assignment, ended: Assignment, started: Assignment) {
    forall t | was.start <= t :: Covers(ended, t) || Covers(started, t)
  }

  /** However the swap goes on after the reading `now`, if a fresh start is not retried it leaves no gap. */
  ghost predicate GapFree(before: Assignments, plan: string, startTime: Option<int>, now: int, p: string)
    requires p in before
  {
    forall after: Assignments, last, rejected | now <= last && SwapDone(before, after, plan, startTime, now, last, rejected)
                                   && after[plan].start == StartsAt(before, plan, startTime, now) ::
      Continuous(before[p], after[p], after[plan])
  }

  /** How a swap can go: every other plan is ended at once; or p is left alone, because it has run out
      by the time its turn comes. */
  function SwapAt(before: Assignments, plan: string, startTime: Option<int>, now: int, p: string, late: bool): Assignments {
    (map q | q in before ::
       if q != plan && Active(before[q], now) && !(late && q == p) then Ended(before[q], now) else before[q])
    [plan := if Held(before, plan, now) then before[plan] else Assignment("1", FreshStart(startTime, now), 0)]
  }

  lemma SwapAtDone(before: Assignments, plan: string, startTime: Option<int>, now: int, p: string, late: bool, last: int)
    requires p in before && p != plan && now <= last && (late ==> !Active(before[p], last))
    ensures SwapDone(before, SwapAt(before, plan, startTime, now, p, late), plan, startTime, now, last, false)
  {
    var after := SwapAt(before, plan, startTime, now, p, late);
    forall q | q in before && q != plan ensures SwappedOut(before[q], after[q], now, last, false) {
      assert Active(before[q], now) && !(late && q == p) ==> EndedAt(before[q], after[q], now, false);
    }
  }

  /** Exactly when a swap is free of gaps, whatever the assignments are: an assignment that is held
      already must be open-ended, and the wanted plan must start no later than the old one, or than
      the first end the old one may get. */
  lemma NoGapExactly(before: Assignments, plan: string, startTime: Option<int>, now: int, p: string)
    requires now >= 0 && p in before && p != plan && before[p].start > 0
    ensures GapFree(before, plan, startTime, now, p) <==>
              && (Held(before, plan, now) ==> OpenEnded(before[plan]))
              && (StartsAt(before, plan, startTime, now) <= before[p].start
                  || StartsAt(before, plan, startTime, now) <= FirstEnd(before[p], now))
  {
    var was, start, end := before[p], StartsAt(before, plan, startTime, now), FirstEnd(before[p], now);
    if (Held(before, plan, now) ==> OpenEnded(before[plan])) && (start <= was.start || start <= end) {
      forall after: Assignments, last, rejected | now <= last && SwapDone(before, after, plan, startTime, now, last, rejected)
                                     && after[plan].start == start
        ensures Continuous(was, after[p], after[plan])
      {
        forall t | was.start <= t ensures Covers(after[p], t) || Covers(after[plan], t) {
          SwapHasNoGap(before, after, plan, startTime, now, last, rejected, p, t);
        }
      }
    } else {
      var late := !OpenEnded(was) && was.end < Unix(now) + SKEW;
      var last := if late && was.end * SECOND > now then was.end * SECOND else now;
      var after := SwapAt(before, plan, startTime, now, p, late);
      SwapAtDone(before, plan, startTime, now, p, late, last);
      assert after[p].end == end;
      var t := if was.start < end then end else was.start;
      if Held(before, plan, now) && !OpenEnded(before[plan]) && t < before[plan].end {
        assert !Covers(after[p], before[plan].end) && !Covers(after[plan], before[plan].end);
      } else {
        assert !Covers(after[p], t) && !Covers(after[plan], t);
      }
    }
  }

  /** Bounded overlap: both plans are billed for at most the time between the two clock readings,
      and a minute more if a request was retried. */
  lemma SwapOverlapBounded(before: Assignments, after: Assignments, plan: string, now: int, last: int,
                           rejected: bool, p: string, t: int)
    requires SwapDone(before, after, plan, None, now, last, rejected) && 0 <= now <= last
    requires p in before && p != plan && !(plan in before && Active(before[plan], now))
    requires Covers(after[p], t) && Covers(after[plan], t)
    ensures Unix(now) + SKEW <= t < Unix(now) + SKEW + (Unix(last) - Unix(now)) + if rejected then RETRY_SHIFT else 0
  {
  }

  /** An input on which there is a gap: an assignment that runs out between the two readings is not
      prolonged, and the customer is on no plan until the fresh one starts. */
  lemma EndingStrayLeavesGap(p: string, plan: string)
    requires p != plan
    ensures var before := map[p := Assignment("1", 10, 101)];
            var after := before[plan := Assignment("1", 130, 0)];
            SwapDone(before, after, plan, None, 100 * SECOND, 102 * SECOND, false)
            && Active(before[p], 100 * SECOND) && !Covers(after[p], 115) && !Covers(after[plan], 115)
  {
  }

  /** Another: the wanted plan is held by an assignment that starts later than the old one is ended,
      as after an earlier call whose start was put off by a retry. */
  lemma LateHeldPlanLeavesGap(p: string, plan: string)
    requires p != plan
    ensures var before := map[p := Assignment("1", 10, 0), plan := Assignment("1", 190, 0)];
            var after := before[p := Assignment("1", 10, 130)];
            SwapDone(before, after, plan, None, 100 * SECOND, 100 * SECOND, false)
            && OpenEnded(after[plan]) && !Covers(after[p], 150) && !Covers(after[plan], 150)
  {
    var was := Assignment("1", 10, 0);
    assert EndedAt(was, Ended(was, 100 * SECOND), 100 * SECOND, false);
  }
}
