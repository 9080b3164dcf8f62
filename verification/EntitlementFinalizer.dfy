/** The BillingEntitlement reconciler: plan swaps driven by annotations, and the finalizer that
    keeps an entitlement until its plans are cancelled. */
module EntitlementFinalizer {
  import opened CustomerPlans
  import opened KubeObjects
  import opened Results

  type Plans = map<string, Assignments>

  predicate OpenPlan(plans: Plans, customer: string, plan: string) {
    plan in Listed(plans, customer) && OpenEnded(Listed(plans, customer)[plan])
  }

  predicate AllClosed(plans: Plans, pairs: set<(string, string)>) {
    forall pair | pair in pairs :: !OpenPlan(plans, pair.0, pair.1)
  }

  // ---- the protocol -------------------------------------------------------

  /** What one reconcile has read: the uids behind the entitlement's two references, None if missing or
      not readable, and whether the object it works on is being deleted. */
  datatype Ids = Ids(account: Option<string>, offer: Option<string>, deleting: bool)

  /** The entitlement object under one name, all customers' assignments, the uids its references lead
      to, which users may change at any time, and what the reconcile under way has read of them. */
  datatype State = State(
    obj: Option<Object>, plans: Plans, account: Option<string>, offer: Option<string>, inHand: Option<Ids>)

  predicate Holds(st: State) { st.obj.Some? && st.obj.value.finalizer }

  function OrElse(a: Option<string>, b: string): string { if a.Some? && a.value != "" then a.value else b }

  /** The (customer, plan) pairs that a deletion answers for: the resolved ids, the annotated ones where
      an id does not resolve, and the annotated plan in any case. */
  function Vouched(o: Object, ids: Ids): set<(string, string)> {
    var customer := OrElse(ids.account, o.lastCustomer);
    var plan := OrElse(if ids.account.Some? then ids.offer else None, o.lastPlan);
    if customer == "" || plan == "" then {}
    else {(customer, plan)} + if o.lastPlan != "" then {(customer, o.lastPlan)} else {}
  }

  /** Users act on the object, and let its references lead elsewhere. */
  ghost predicate UserStep(before: State, after: State) {
    exists act, account, offer :: after == AfterUsers(before, act, account, offer)
  }

  function AfterUsers(st: State, act: UserAct, account: Option<string>, offer: Option<string>): State {
    var obj := AfterUser(st.obj, act);
    st.(obj := obj, account := account, offer := offer, inHand := if obj.None? then None else st.inHand)
  }

  predicate ReadsAccount(before: State, after: State, account: Option<string>, deleting: bool) {
    && before.obj.Some? && (deleting ==> before.obj.value.deleting)
    && (account.None? || account == before.account)
    && after == before.(inHand := Some(Ids(account, None, deleting)))
  }

  predicate ReadsOffer(before: State, after: State, offer: Option<string>) {
    && before.inHand.Some? && (offer.None? || offer == before.offer)
    && after == before.(inHand := Some(before.inHand.value.(offer := offer)))
  }

  /** Both ids were read. */
  predicate Resolved(st: State) {
    st.inHand.Some? && st.inHand.value.account.Some? && st.inHand.value.offer.Some?
  }

  predicate Assigns(before: State, after: State, customer: string, plan: string) {
    && Holds(before) && Resolved(before)
    && customer == before.inHand.value.account.value && plan == before.inHand.value.offer.value
    && after == before.(plans := after.plans)
  }

  ghost predicate OpensOnly(before: Plans, after: Plans, customer: string, plan: string) {
    forall c, p | OpenPlan(after, c, p) :: OpenPlan(before, c, p) || (c == customer && p == plan)
  }

  ghost predicate OpensNothing(before: Plans, after: Plans) {
    forall c, p | OpenPlan(after, c, p) :: OpenPlan(before, c, p)
  }

  predicate Annotates(before: State, after: State) {
    && Holds(before) && Resolved(before)
    && after == before.(obj := Some(before.obj.value.(
         lastPlan := before.inHand.value.offer.value, lastCustomer := before.inHand.value.account.value)))
  }

  /** The object is let go only while it is being deleted, on ids read since then, and only when
      everything the deletion answers for is closed. */
  predicate Releases(before: State, after: State) {
    && before.obj.Some? && before.obj.value.deleting && before.inHand.Some? && before.inHand.value.deleting
    && AllClosed(before.plans, Vouched(before.obj.value, before.inHand.value))
    && after == before.(obj := Released(before.obj), inHand := None)
  }

  ghost predicate ControllerStep(before: State, after: State) {
    || after == before.(obj := WithFinalizer(before.obj))
    || (exists account, deleting :: ReadsAccount(before, after, account, deleting))
    || (exists offer :: ReadsOffer(before, after, offer))
    || (exists customer, plan ::
          Assigns(before, after, customer, plan) && OpensOnly(before.plans, after.plans, customer, plan))
    || Annotates(before, after)
    || (after == before.(plans := after.plans) && OpensNothing(before.plans, after.plans))
    || Releases(before, after)
  }

  ghost predicate Step(before: State, after: State) { UserStep(before, after) || ControllerStep(before, after) }

  ghost function Steps(): (State, State) -> bool { (a, b) => Step(a, b) }

  // ---- what holds over every run ------------------------------------------

  /** The entitlement held its finalizer at step r, and not since. */
  predicate GoneSince(run: seq<State>, r: nat, k: nat) {
    r < k < |run| && Holds(run[r]) && forall i | r < i <= k :: !Holds(run[i])
  }

  lemma OnlyReleaseLetsGo(before: State, after: State)
    requires Step(before, after) && Holds(before) && !Holds(after)
    ensures Releases(before, after)
  {
  }

  lemma NothingOpensUnheld(before: State, after: State, pairs: set<(string, string)>)
    requires Step(before, after) && !Holds(before) && AllClosed(before.plans, pairs)
    ensures AllClosed(after.plans, pairs)
  {
  }

  lemma {:induction false} VouchedStaysClosed(run: seq<State>, r: nat, k: nat)
    requires IsRun(run, Steps()) && GoneSince(run, r, k)
    ensures Releases(run[r], run[r + 1])
    ensures AllClosed(run[k].plans, Vouched(run[r].obj.value, run[r].inHand.value))
    decreases k
  {
    assert Steps()(run[r + 1 - 1], run[r + 1]);
    OnlyReleaseLetsGo(run[r], run[r + 1]);
    if k > r + 1 {
      VouchedStaysClosed(run, r, k - 1);
      assert Steps()(run[k - 1], run[k]);
      NothingOpensUnheld(run[k - 1], run[k], Vouched(run[r].obj.value, run[r].inHand.value));
    }
  }

  /** Over every run of users and reconciles, with a failure or a crash between any two steps: once an
      entitlement is gone, the customer of the deletion (the resolved account or, for want of one, the
      annotated customer) has no open-ended assignment to the annotated plan, nor to the resolved Offer. */
  lemma GoneEntitlementIsCancelled(run: seq<State>, r: nat, k: nat)
    requires IsRun(run, Steps()) && GoneSince(run, r, k)
    ensures run[r].inHand.Some? && run[r].inHand.value.deleting
    ensures var o, ids := run[r].obj.value, run[r].inHand.value;
      var customer := OrElse(ids.account, o.lastCustomer);
      && (customer != "" && o.lastPlan != "" ==> !OpenPlan(run[k].plans, customer, o.lastPlan))
      && (customer != "" && Resolved(run[r]) && ids.offer.value != "" ==>
            !OpenPlan(run[k].plans, customer, ids.offer.value))
  {
    VouchedStaysClosed(run, r, k);
    var o, ids := run[r].obj.value, run[r].inHand.value;
    var customer := OrElse(ids.account, o.lastCustomer);
    assert customer != "" && o.lastPlan != "" ==> (customer, o.lastPlan) in Vouched(o, ids);
    assert customer != "" && Resolved(run[r]) && ids.offer.value != "" ==> (customer, ids.offer.value) in Vouched(o, ids);
  }

  predicate LeadsTo(st: State, account: string, offer: string) {
    st.account == Some(account) && st.offer == Some(offer)
  }

  predicate ReadRight(st: State, account: string, offer: string) {
    LeadsTo(st, account, offer)
    && (st.inHand.Some? ==>
          (st.inHand.value.account.Some? ==> st.inHand.value.account.value == account)
          && (st.inHand.value.offer.Some? ==> st.inHand.value.offer.value == offer))
  }

  ghost function StableSteps(account: string, offer: string): (State, State) -> bool {
    (a, b) => Step(a, b) && LeadsTo(b, account, offer)
  }

  /** Where the references do not change, the ids a reconcile could read are the entitlement's own. */
  lemma ResolvedIdsAreItsOwn(run: seq<State>, account: string, offer: string)
    requires IsRun(run, StableSteps(account, offer)) && ReadRight(run[0], account, offer)
    ensures forall i | 0 <= i < |run| :: ReadRight(run[i], account, offer)
  {
    InvariantOverRun(run, StableSteps(account, offer), (a: State) => ReadRight(a, account, offer));
  }

  /** So an entitlement whose references lead to an account and an Offer throughout, and that was let go
      by a reconcile that could read both, leaves no open-ended assignment of that account to that Offer. */
  lemma GoneFromItsOwnPlan(run: seq<State>, account: string, offer: string, r: nat, k: nat)
    requires IsRun(run, StableSteps(account, offer)) && ReadRight(run[0], account, offer)
    requires account != "" && offer != "" && GoneSince(run, r, k) && Resolved(run[r])
    ensures !OpenPlan(run[k].plans, account, offer)
    ensures run[r].obj.value.lastPlan != "" ==> !OpenPlan(run[k].plans, account, run[r].obj.value.lastPlan)
  {
    ResolvedIdsAreItsOwn(run, account, offer);
    forall i | 0 < i < |run| ensures Steps()(run[i - 1], run[i]) {
      assert StableSteps(account, offer)(run[i - 1], run[i]);
    }
    GoneEntitlementIsCancelled(run, r, k);
  }

  // ---- exactly what a deletion answers for --------------------------------

  predicate Nothing(st: State) { st.obj.None? && st.plans == map[] && st.inHand.None? }

  /** A run from an account without the entitlement and without assignments, at the end of which
      step r has let the object o go, on the ids read. */
  ghost predicate LetsGo(run: seq<State>, r: nat, o: Object, ids: Ids) {
    && IsRun(run, Steps()) && Nothing(run[0])
    && GoneSince(run, r, |run| - 1) && run[r].obj == Some(o) && run[r].inHand == Some(ids)
  }

  ghost predicate Reaches(a: State, b: State) { exists run :: RunFromTo(run, Steps(), a, b) }

  lemma ReachesByStep(a: State, b: State, c: State)
    requires Reaches(a, b) && Step(b, c)
    ensures Reaches(a, c)
  {
    var run :| RunFromTo(run, Steps(), a, b);
    OneStep(Steps(), b, c);
    Joined(Steps(), run, [b, c], a, b, c);
  }

  /** The customer is swapped to the plan. */
  function Swapped(plans: Plans, customer: string, plan: string): Plans {
    plans[customer := (map p | p in Listed(plans, customer) :: Ended(Listed(plans, customer)[p], 0))
                      [plan := Assignment("1", SKEW, 0)]]
  }

  /** The pairs are cancelled. */
  function Cancelled(plans: Plans, pairs: set<(string, string)>): Plans {
    map c | c in plans ::
      map p | p in plans[c] :: if (c, p) in pairs then Ended(plans[c][p], 0) else plans[c][p]
  }

  lemma ReachesAssigned(start: State, st: State, customer: string, plan: string)
    requires Reaches(start, st) && Holds(st)
    ensures var ids := Some(Ids(Some(customer), Some(plan), false));
      Reaches(start, State(st.obj, Swapped(st.plans, customer, plan), Some(customer), Some(plan), ids))
  {
    var a := AfterUsers(st, Idle, Some(customer), Some(plan));
    var b := a.(inHand := Some(Ids(Some(customer), None, false)));
    var c := a.(inHand := Some(Ids(Some(customer), Some(plan), false)));
    var d := c.(plans := Swapped(st.plans, customer, plan));
    assert UserStep(st, a);
    ReachesByStep(start, st, a);
    assert ReadsAccount(a, b, Some(customer), false);
    ReachesByStep(start, a, b);
    assert ReadsOffer(b, c, Some(plan));
    ReachesByStep(start, b, c);
    assert Assigns(c, d, customer, plan) && OpensOnly(c.plans, d.plans, customer, plan);
    ReachesByStep(start, c, d);
  }

  /** From nothing to an object that holds the finalizer and remembers any pair. */
  lemma ReachesRemembering(o: Object)
    ensures exists start, st: State :: Nothing(start) && Reaches(start, st)
              && st.obj == Some(o.(deleting := false, finalizer := true))
              && (forall c, p | OpenPlan(st.plans, c, p) :: c == o.lastCustomer && p == o.lastPlan)
  {
    var start := State(None, map[], None, None, None);
    assert RunFromTo([start], Steps(), start, start);
    var a := AfterUsers(start, Create(o.uid), None, None);
    var b := AfterUsers(a, Annotate(o.force), None, None);
    var c := b.(obj := WithFinalizer(b.obj));
    assert UserStep(start, a) && UserStep(a, b);
    ReachesByStep(start, start, a);
    ReachesByStep(start, a, b);
    ReachesByStep(start, b, c);
    if o.lastPlan == "" && o.lastCustomer == "" {
      assert c.obj == Some(o.(deleting := false, finalizer := true));
    } else {
      ReachesAssigned(start, c, o.lastCustomer, o.lastPlan);
      var ids := Some(Ids(Some(o.lastCustomer), Some(o.lastPlan), false));
      var d := State(c.obj, Swapped(map[], o.lastCustomer, o.lastPlan), Some(o.lastCustomer), Some(o.lastPlan), ids);
      var e := d.(obj := Some(o.(deleting := false, finalizer := true)));
      assert Annotates(d, e);
      ReachesByStep(start, d, e);
    }
  }

  /** What is not answered for can be left open: the customer is assigned the plan, the reconcile
      crashes before it can remember that, and the references lead elsewhere when the object goes. */
  lemma UnvouchedIsLeftOpen(o: Object, ids: Ids, c: string, p: string)
    requires o.deleting && o.finalizer && ids.deleting && (c, p) !in Vouched(o, ids)
    ensures exists run: seq<State>, r :: LetsGo(run, r, o, ids) && OpenPlan(run[|run| - 1].plans, c, p)
  {
    hide Step, OpenPlan, Vouched, Swapped, Cancelled;
    ReachesRemembering(o);
    var start, st: State :| Nothing(start) && Reaches(start, st)
                     && st.obj == Some(o.(deleting := false, finalizer := true));
    ReachesAssigned(start, st, c, p);
    var swapped := State(st.obj, Swapped(st.plans, c, p), Some(c), Some(p), Some(Ids(Some(c), Some(p), false)));
    assert OpenPlan(swapped.plans, c, p) by { SwappedOpens(st.plans, c, p); }
    DeletionLeaves(start, swapped, o, ids, c, p);
  }

  lemma SwappedOpens(plans: Plans, c: string, p: string)
    ensures OpenPlan(Swapped(plans, c, p), c, p)
  {
  }

  lemma CancelledCloses(plans: Plans, pairs: set<(string, string)>, c: string, p: string)
    ensures AllClosed(Cancelled(plans, pairs), pairs) && OpensNothing(plans, Cancelled(plans, pairs))
    ensures (c, p) !in pairs && OpenPlan(plans, c, p) ==> OpenPlan(Cancelled(plans, pairs), c, p)
  {
  }

  lemma DeletionLeaves(start: State, st: State, o: Object, ids: Ids, c: string, p: string)
    requires Nothing(start) && Reaches(start, st)
    requires st.obj == Some(o.(deleting := false, finalizer := true)) && OpenPlan(st.plans, c, p)
    requires o.deleting && o.finalizer && ids.deleting && (c, p) !in Vouched(o, ids)
    ensures exists run: seq<State>, r :: LetsGo(run, r, o, ids) && OpenPlan(run[|run| - 1].plans, c, p)
  {
    hide OpenPlan, Vouched, Cancelled, AllClosed;
    var s0 := AfterUsers(st, RequestDelete, ids.account, ids.offer);
    var s1 := s0.(inHand := Some(Ids(ids.account, None, true)));
    var s2 := s0.(inHand := Some(ids));
    var s3 := s2.(plans := Cancelled(st.plans, Vouched(o, ids)));
    var s4 := s3.(obj := Released(s3.obj), inHand := None);
    assert UserStep(st, s0);
    ReachesByStep(start, st, s0);
    assert ReadsAccount(s0, s1, ids.account, true);
    ReachesByStep(start, s0, s1);
    assert ReadsOffer(s1, s2, ids.offer);
    ReachesByStep(start, s1, s2);
    CancelledCloses(st.plans, Vouched(o, ids), c, p);
    ReachesByStep(start, s2, s3);
    assert s3.obj == Some(o) && Releases(s3, s4);
    var front :| RunFromTo(front, Steps(), start, s3);
    var run := front + [s4];
    assert IsRun(run, Steps());
    assert LetsGo(run, |front| - 1, o, ids);
  }

  /** Exactly what a deletion answers for: every run that lets the object go on the ids read ends
      with the pair closed, if and only if the pair is vouched for. */
  lemma VouchedExactly(o: Object, ids: Ids, c: string, p: string)
    requires o.deleting && o.finalizer && ids.deleting
    ensures (forall run: seq<State>, r | LetsGo(run, r, o, ids) :: !OpenPlan(run[|run| - 1].plans, c, p))
            <==> (c, p) in Vouched(o, ids)
  {
    hide OpenPlan, Vouched;
    if (c, p) in Vouched(o, ids) {
      forall run: seq<State>, r | LetsGo(run, r, o, ids) ensures !OpenPlan(run[|run| - 1].plans, c, p) {
        VouchedStaysClosed(run, r, |run| - 1);
      }
    } else {
      UnvouchedIsLeftOpen(o, ids, c, p);
    }
  }

  /** The annotated assignment itself is sure to be closed if and only if the account is not found, or
      is still the annotated one. */
  lemma AnnotatedAssignmentExactly(o: Object, ids: Ids)
    requires o.deleting && o.finalizer && ids.deleting && o.lastCustomer != "" && o.lastPlan != ""
    ensures (forall run: seq<State>, r | LetsGo(run, r, o, ids) ::
               !OpenPlan(run[|run| - 1].plans, o.lastCustomer, o.lastPlan))
            <==> ids.account in {None, Some(""), Some(o.lastCustomer)}
  {
    VouchedExactly(o, ids, o.lastCustomer, o.lastPlan);
  }

  /** So an account that was recreated, or another one that is now referred to, takes the blame: no
      crash, both ids resolved, and the annotated assignment stays open-ended. */
  lemma ChangedAccountIsLeftOpen(c1: string, c2: string, a: string)
    requires c1 != c2 && c1 != "" && c2 != "" && a != ""
    ensures exists run: seq<State>, r: nat, o, ids ::
              && LetsGo(run, r, o, ids) && o.lastCustomer == c1 && o.lastPlan == a && Resolved(run[r])
              && ids.account == Some(c2) && ids.offer == Some(a) && OpenPlan(run[|run| - 1].plans, c1, a)
  {
    var o, ids := Object("uid", true, true, false, a, c1), Ids(Some(c2), Some(a), true);
    AnnotatedAssignmentExactly(o, ids);
    var run: seq<State>, r :| LetsGo(run, r, o, ids) && OpenPlan(run[|run| - 1].plans, c1, a);
  }

  /** After a crash between an assignment and its annotation, and a change of the Offer, the
      assignment outlives the entitlement. */
  lemma UnrememberedPlanIsLeftOpen(customer: string, a: string, b: string)
    requires a != b
    ensures exists run: seq<State>, r: nat, o, ids ::
              && LetsGo(run, r, o, ids) && o.lastPlan == "" && Resolved(run[r])
              && ids.account == Some(customer) && ids.offer == Some(b) && OpenPlan(run[|run| - 1].plans, customer, a)
  {
    var o, ids := Object("uid", true, true, false, "", ""), Ids(Some(customer), Some(b), true);
    VouchedExactly(o, ids, customer, a);
    var run: seq<State>, r :| LetsGo(run, r, o, ids) && OpenPlan(run[|run| - 1].plans, customer, a);
  }

  // ---- timing of a swap away from the remembered plan ---------------------

  /** An assignment that was ended at one reading is swapped out at a later one. */
  ghost predicate SwappedInTwo(start: Assignments, after: Assignments, previous: string, plan: string, at: int, now: int,
                               last: int) {
    exists middle: Assignments ::
      && previous in start && middle == start[previous := Ended(start[previous], at)]
      && SwapDone(middle, after, plan, None, now, last, false)
  }

  /** The plan an annotation remembers is cancelled on its own first, and again by the assignment that
      follows. A gap can only be between its first possible end, which is no earlier than for the first
      reading, and the start of the new assignment. */
  lemma PreviousPlanSwapHasNoGap(was: Assignment, before: Assignments, after: Assignments, previous: string, plan: string,
                                 at: int, now: int, last: int, retried: bool, rejected: bool, t: int)
    requires 0 <= at <= now <= last && was.start > 0 && previous != plan && previous in before
    requires EndedAt(was, before[previous], at, retried)
    requires SwapDone(before, after, plan, None, now, last, rejected) && OpenEnded(after[plan])
    requires was.start <= t
    ensures Covers(after[previous], t) || Covers(after[plan], t) || FirstEnd(before[previous], now) <= t < after[plan].start
    ensures Unix(at) + SKEW <= FirstEnd(before[previous], now) <= Unix(now) + SKEW
  {
    SwapHasNoGap(before, after, plan, None, now, last, rejected, previous, t);
  }

  /** What the reconciler's swap of the remembered plan comes to: any gap lies between the ends of the
      two plans' cover as the two readings set them, so a fresh assignment comes late by at most the
      seconds between them. */
  lemma SwapInTwoGap(start: Assignments, after: Assignments, previous: string, plan: string, at: int, now: int, last: int,
                     t: int)
    requires SwappedInTwo(start, after, previous, plan, at, now, last) && 0 <= at <= now <= last
    requires previous != plan && start[previous].start > 0 && start[previous].start <= t
    requires plan in after && OpenEnded(after[plan])
    ensures previous in after
    ensures Covers(after[previous], t) || Covers(after[plan], t) || Unix(at) + SKEW <= t < after[plan].start
    ensures !Held(start, plan, now) ==> after[plan].start == Unix(now) + SKEW
  {
    var middle: Assignments :| middle == start[previous := Ended(start[previous], at)]
                               && SwapDone(middle, after, plan, None, now, last, false);
    PreviousPlanSwapHasNoGap(start[previous], middle, after, previous, plan, at, now, last, false, false, t);
  }

  /** Exactly when there is no gap: the new assignment is open-ended, and starts no later than the old
      one did or can end. For a fresh one, and an unretried cancellation, that says that both readings
      fall into the same second. */
  lemma PreviousPlanNoGapExactly(was: Assignment, before: Assignments, previous: string, plan: string, at: int, now: int,
                                 retried: bool)
    requires 0 <= at <= now && 0 < was.start && previous != plan && previous in before
    requires EndedAt(was, before[previous], at, retried)
    ensures GapFree(before, plan, None, now, previous) <==>
              && (Held(before, plan, now) ==> OpenEnded(before[plan]))
              && (StartsAt(before, plan, None, now) <= was.start
                  || StartsAt(before, plan, None, now) <= FirstEnd(before[previous], now))
    ensures before[previous] == Ended(was, at) ==> FirstEnd(before[previous], now) == Unix(at) + SKEW
    ensures !Held(before, plan, now) && was.start < Unix(now) + SKEW ==>
              && (GapFree(before, plan, None, now, previous) <==> before[previous].end >= Unix(now) + SKEW)
              && (before[previous] == Ended(was, at) ==> (GapFree(before, plan, None, now, previous) <==> Unix(now) == Unix(at)))
  {
    NoGapExactly(before, plan, None, now, previous);
  }

  // ---- the reconciler -----------------------------------------------------

  /** An Offer's uid, whether it is generally available, and whether it has prices. */
  datatype Offer = Offer(uid: string, generallyAvailable: bool, priced: bool)

  /** Where the entitlement's two references lead. */
  datatype References = References(account: Option<string>, offer: Option<Offer>)

  function UidOf(offer: Option<Offer>): Option<string> { if offer.Some? then Some(offer.value.uid) else None }

  /** The entitlement can be assigned now: its account and a priced, generally available Offer exist,
      and the Offer's plan is in Amberflo. */
  predicate Assignable(refs: References, planExists: bool) {
    && refs.account.Some? && refs.account.value != "" && refs.offer.Some? && refs.offer.value.uid != ""
    && refs.offer.value.generallyAvailable && refs.offer.value.priced && planExists
  }

  class EntitlementWorld {
    const kube: KubeObject
    const pricing: CustomerPricing
    /** Where the references lead before the k-th request. */
    const leads: nat -> References
    var references: References
    ghost var inHand: Option<Ids>

    constructor (kube: KubeObject, pricing: CustomerPricing, leads: nat -> References)
      requires pricing.ClockRuns() && kube.obj.None?
      ensures this.kube == kube && this.pricing == pricing && this.leads == leads && inHand == None
    {
      this.kube, this.pricing, this.leads := kube, pricing, leads;
      references, inHand := References(None, None), None;
    }

    ghost function Now(): State
      reads this, kube, pricing
    {
      State(kube.obj, pricing.plans, references.account, UidOf(references.offer), inHand)
    }

    /** From here on users keep still, the references lead to the same objects, and no request goes wrong. */
    ghost predicate Calm()
      reads `references, kube, pricing
    {
      kube.Calm() && pricing.FailureFree() && forall k | k >= kube.calls :: leads(k) == references
    }

    /** The customer is on the plan and no other plan is open-ended, and the annotations say so. */
    ghost predicate Remembered(customer: string, plan: string)
      reads kube, pricing
    {
      && plan in Listed(pricing.plans, customer) && (forall p | p != plan :: !OpenPlan(pricing.plans, customer, p))
      && kube.obj.Some? && kube.obj.value.lastPlan == plan && kube.obj.value.lastCustomer == customer
    }

    method UsersAct(ghost run: seq<State>, ghost start: State) returns (ghost longer: seq<State>)
      requires RunFromTo(run, Steps(), start, Now())
      modifies this, kube
      ensures RunFromTo(longer, Steps(), start, Now())
      ensures Holds(old(Now())) ==>
                && Holds(Now()) && inHand == old(inHand) && (old(kube.obj.value.deleting) ==> kube.obj.value.deleting)
                && kube.obj.value.uid == old(kube.obj.value.uid)
                && kube.obj.value.lastPlan == old(kube.obj.value.lastPlan)
                && kube.obj.value.lastCustomer == old(kube.obj.value.lastCustomer)
      ensures old(kube.calls) < kube.calls && references == leads(old(kube.calls))
      ensures old(kube.acts(kube.calls)).Idle? ==> kube.obj == old(kube.obj)
      ensures old(Calm()) ==>
                && Calm() && references == old(references) && kube.obj == old(kube.obj)
                && kube.api(kube.calls).Done? && pricing.FailureFree()
    {
      ghost var before := Now();
      references := leads(kube.calls);
      var act := kube.UserActs();
      if kube.obj.None? {
        inHand := None;
      }
      assert Now() == AfterUsers(before, act, references.account, UidOf(references.offer));
      assert UserStep(before, Now());
      OneStep(Steps(), before, Now());
      Joined(Steps(), run, [before, Now()], start, before, Now());
      longer := run + [before, Now()][1..];
    }

    method ReadAccount(deleting: bool, ghost run: seq<State>, ghost start: State)
        returns (account: Option<string>, ghost longer: seq<State>)
      requires RunFromTo(run, Steps(), start, Now()) && kube.obj.Some? && (deleting ==> kube.obj.value.deleting)
      modifies this`inHand
      ensures RunFromTo(longer, Steps(), start, Now()) && inHand == Some(Ids(account, None, deleting))
      ensures kube.api(kube.calls).Done? ==> account == references.account
    {
      ghost var before := Now();
      account := if kube.api(kube.calls).Done? then references.account else None;
      inHand := Some(Ids(account, None, deleting));
      assert ReadsAccount(before, Now(), account, deleting);
      OneStep(Steps(), before, Now());
      Joined(Steps(), run, [before, Now()], start, before, Now());
      longer := run + [before, Now()][1..];
    }

    method ReadOffer(ghost run: seq<State>, ghost start: State) returns (offer: Option<Offer>, ghost longer: seq<State>)
      requires RunFromTo(run, Steps(), start, Now()) && inHand.Some?
      modifies this`inHand
      ensures RunFromTo(longer, Steps(), start, Now()) && inHand == Some(old(inHand).value.(offer := UidOf(offer)))
      ensures kube.api(kube.calls).Done? ==> offer == references.offer
    {
      ghost var before := Now();
      offer := if kube.api(kube.calls).Done? then references.offer else None;
      inHand := Some(inHand.value.(offer := UidOf(offer)));
      assert ReadsOffer(before, Now(), UidOf(offer));
      OneStep(Steps(), before, Now());
      Joined(Steps(), run, [before, Now()], start, before, Now());
      longer := run + [before, Now()][1..];
    }

    method AddFinalizer(ghost run: seq<State>, ghost start: State) returns (ghost longer: seq<State>)
      requires RunFromTo(run, Steps(), start, Now())
      modifies kube
      ensures RunFromTo(longer, Steps(), start, Now())
    {
      ghost var before := Now();
      IdleStep(before);
      var e := kube.Write(WithFinalizer(kube.obj));
      OneStep(Steps(), before, Now());
      Joined(Steps(), run, [before, Now()], start, before, Now());
      longer := run + [before, Now()][1..];
    }

    method Annotate(customer: string, plan: string, ghost run: seq<State>, ghost start: State)
        returns (ghost longer: seq<State>)
      requires RunFromTo(run, Steps(), start, Now()) && Holds(Now())
      requires inHand.Some? && inHand.value.account == Some(customer) && inHand.value.offer == Some(plan)
      modifies kube
      ensures RunFromTo(longer, Steps(), start, Now())
      ensures kube.api(old(kube.calls)).Done? ==>
                kube.obj == Some(old(kube.obj.value).(lastPlan := plan, lastCustomer := customer))
    {
      ghost var before := Now();
      IdleStep(before);
      var e := kube.Write(Some(kube.obj.value.(lastPlan := plan, lastCustomer := customer)));
      assert Now() == before || Annotates(before, Now());
      OneStep(Steps(), before, Now());
      Joined(Steps(), run, [before, Now()], start, before, Now());
      longer := run + [before, Now()][1..];
    }

    method Cancel(customer: string, plan: string, ghost run: seq<State>, ghost start: State)
        returns (r: Result<()>, ghost longer: seq<State>)
      requires pricing.ClockRuns() && RunFromTo(run, Steps(), start, Now())
      modifies pricing`tick, pricing`clockReads, pricing`plans, pricing`posts
      ensures RunFromTo(longer, Steps(), start, Now())
      ensures r.Ok? ==> !OpenPlan(pricing.plans, customer, plan)
      ensures old(pricing.FailureFree()) && customer != "" && plan != "" ==> r.Ok?
      ensures old(Calm()) ==> Calm()
      ensures forall p | p in Listed(pricing.plans, customer) :: p in Listed(old(pricing.plans), customer)
      ensures OpensNothing(old(pricing.plans), pricing.plans)
      // Failure-free, an active assignment is ended as of this call's reading, and nothing else changes.
      ensures (old(pricing.FailureFree()) && customer != "" && plan != "" && plan in Listed(old(pricing.plans), customer)
               && Active(Listed(old(pricing.plans), customer)[plan], pricing.readings(old(pricing.clockReads)))) ==>
                && pricing.clockReads == old(pricing.clockReads) + 1
                && Listed(pricing.plans, customer) ==
                   Listed(old(pricing.plans), customer)[plan := Ended(Listed(old(pricing.plans), customer)[plan],
                                                                      pricing.readings(old(pricing.clockReads)))]
    {
      ghost var before := Now();
      hide OpensNothing;
      r := CancelCustomerPlan(pricing, customer, plan);
      if plan in Listed(before.plans, customer) && plan in Listed(pricing.plans, customer) {
        SameElsewhere(Listed(before.plans, customer), Listed(pricing.plans, customer), plan);
      }
      CancelOpensNothing(before.plans, pricing.plans, customer, plan);
      assert ControllerStep(before, Now());
      OneStep(Steps(), before, Now());
      Joined(Steps(), run, [before, Now()], start, before, Now());
      longer := run + [before, Now()][1..];
    }

    method Assign(customer: string, plan: string, ghost run: seq<State>, ghost start: State)
        returns (r: Result<Assignment>, ghost longer: seq<State>)
      requires pricing.ClockRuns() && RunFromTo(run, Steps(), start, Now()) && Holds(Now())
      requires inHand.Some? && inHand.value.account == Some(customer) && inHand.value.offer == Some(plan)
      modifies pricing`tick, pricing`clockReads, pricing`plans, pricing`posts
      ensures RunFromTo(longer, Steps(), start, Now())
      ensures r.Ok? ==>
                plan in Listed(pricing.plans, customer) && forall p | p != plan :: !OpenPlan(pricing.plans, customer, p)
      ensures r.Ok? ==>
                && pricing.clockReads > old(pricing.clockReads)
                && SwapDone(Listed(old(pricing.plans), customer), Listed(pricing.plans, customer), plan, None,
                            pricing.readings(old(pricing.clockReads)), pricing.readings(pricing.clockReads - 1),
                            !pricing.NoneRejected(old(pricing.tick), pricing.tick))
      ensures (old(pricing.FailureFree()) && customer != "" && plan != "" && "" !in Listed(old(pricing.plans), customer)) ==>
                r.Ok?
      ensures old(Calm()) ==> Calm()
    {
      ghost var before := Now();
      ghost var now := pricing.readings(pricing.clockReads);
      hide SwapDone, SomeSwapped, OpensOnly, Step, RunFromTo, Holds, Listed, OpenPlan;
      r := EnsureCustomerPlan(pricing, customer, plan, "", None);
      if r.Ok? {
        OnlyWantedPlanOpenEnded(Listed(before.plans, customer), Listed(pricing.plans, customer), plan, None, now,
                                pricing.readings(pricing.clockReads - 1),
                                !pricing.NoneRejected(old(pricing.tick), pricing.tick));
      }
      SameOpens(before.plans, customer, plan);
      if pricing.plans != before.plans {
        EnsureOpensOnly(before.plans, pricing.plans, customer, plan, now, pricing.readings(pricing.clockReads - 1),
                        !pricing.NoneRejected(old(pricing.tick), pricing.tick));
      }
      assert Step(before, Now()) by { AssignIsStep(before, Now(), customer, plan); }
      OneStep(Steps(), before, Now());
      Joined(Steps(), run, [before, Now()], start, before, Now());
      longer := run + [before, Now()][1..];
    }

    /** Lets the object go, everything the deletion answers for being closed. */
    method RemoveFinalizer(ghost run: seq<State>, ghost start: State) returns (ghost longer: seq<State>)
      requires RunFromTo(run, Steps(), start, Now())
      requires kube.obj.Some? && kube.obj.value.deleting && inHand.Some? && inHand.value.deleting
      requires AllClosed(pricing.plans, Vouched(kube.obj.value, inHand.value))
      modifies this`inHand, kube
      ensures RunFromTo(longer, Steps(), start, Now())
      ensures kube.api(old(kube.calls)).Done? ==> kube.obj.None?
    {
      ghost var before := Now();
      IdleStep(before);
      var e := kube.Write(Released(kube.obj));
      if kube.obj.None? {
        inHand := None;
      }
      assert Now() == before || Releases(before, Now());
      OneStep(Steps(), before, Now());
      Joined(Steps(), run, [before, Now()], start, before, Now());
      longer := run + [before, Now()][1..];
    }

    /** Reads the two ids; the Offer only where the account could be read. */
    method ResolveIds(ghost run: seq<State>, ghost start: State)
        returns (account: Option<string>, offer: Option<string>, ghost longer: seq<State>)
      requires RunFromTo(run, Steps(), start, Now()) && Holds(Now()) && kube.obj.value.deleting
      modifies this, kube
      ensures RunFromTo(longer, Steps(), start, Now()) && Holds(Now()) && kube.obj.value.deleting
      ensures kube.obj.value.lastPlan == old(kube.obj.value.lastPlan)
      ensures kube.obj.value.lastCustomer == old(kube.obj.value.lastCustomer)
      ensures inHand == Some(Ids(account, offer, true)) && (account.None? ==> offer.None?)
      ensures old(Calm()) ==>
                && Calm() && references == old(references)
                && account == references.account && (account.Some? ==> offer == UidOf(references.offer))
    {
      hide Step, RunFromTo, Calm;
      longer := UsersAct(run, start);
      account, longer := ReadAccount(true, longer, start);
      offer := None;
      if account.Some? {
        longer := UsersAct(longer, start);
        var found;
        found, longer := ReadOffer(longer, start);
        offer := UidOf(found);
      }
    }

    /** Cancels one plan after the other, up to the first failure. */
    method CancelAll(customer: string, plans: set<string>, ghost run: seq<State>, ghost start: State)
        returns (r: Result<()>, ghost longer: seq<State>)
      requires pricing.ClockRuns() && RunFromTo(run, Steps(), start, Now())
      requires Holds(Now()) && kube.obj.value.deleting
      modifies this, kube, pricing
      ensures RunFromTo(longer, Steps(), start, Now())
      ensures Holds(Now()) && kube.obj.value.deleting && inHand == old(inHand)
      ensures kube.obj.value.lastPlan == old(kube.obj.value.lastPlan)
      ensures kube.obj.value.lastCustomer == old(kube.obj.value.lastCustomer)
      ensures r.Ok? ==> forall p | p in plans :: !OpenPlan(pricing.plans, customer, p)
      ensures old(Calm()) ==> Calm() && references == old(references) && (customer != "" && "" !in plans ==> r.Ok?)
    {
      hide Step, RunFromTo, Calm, OpenPlan;
      longer := run;
      var rest := plans;
      while rest != {}
        invariant rest <= plans && RunFromTo(longer, Steps(), start, Now())
        invariant forall p | p in plans - rest :: !OpenPlan(pricing.plans, customer, p)
        invariant Holds(Now()) && kube.obj.value.deleting && inHand == old(inHand)
        invariant kube.obj.value.lastPlan == old(kube.obj.value.lastPlan)
        invariant kube.obj.value.lastCustomer == old(kube.obj.value.lastCustomer)
        invariant old(Calm()) ==> Calm() && references == old(references)
        decreases rest
      {
        var p :| p in rest;
        longer := UsersAct(longer, start);
        r, longer := Cancel(customer, p, longer, start);
        if r.Err? {
          return;
        }
        rest := rest - {p};
      }
      r := Ok(());
    }

    method ReconcileDelete(o: Object, ghost run: seq<State>, ghost start: State) returns (ghost longer: seq<State>)
      requires pricing.ClockRuns() && RunFromTo(run, Steps(), start, Now()) && kube.obj == Some(o) && o.deleting
      modifies this, kube, pricing
      ensures RunFromTo(longer, Steps(), start, Now())
      // Left alone, it lets the object go; and then neither its own plan nor the annotated one is open-ended.
      ensures old(Calm()) && o.finalizer ==> kube.obj.None? && references == old(references)
      ensures (old(Calm()) && o.finalizer && references.account.Some? && references.account.value != ""
               && references.offer.Some? && references.offer.value.uid != "") ==>
                !OpenPlan(pricing.plans, references.account.value, references.offer.value.uid)
                && (o.lastPlan != "" ==> !OpenPlan(pricing.plans, references.account.value, o.lastPlan))
    {
      hide Step, RunFromTo, Calm, OpenPlan;
      longer := run;
      if !o.finalizer {
        return;
      }
      var account, offer;
      account, offer, longer := ResolveIds(longer, start);
      var customer := OrElse(account, o.lastCustomer);
      var plan := OrElse(offer, o.lastPlan);
      if customer == "" || plan == "" {
        longer := UsersAct(longer, start);
        longer := RemoveFinalizer(longer, start);
        return;
      }
      var plansToCancel := {plan} + if o.lastPlan != "" then {o.lastPlan} else {};
      var cancelled;
      cancelled, longer := CancelAll(customer, plansToCancel, longer, start);
      if cancelled.Err? {
        return;
      }
      longer := UsersAct(longer, start);
      longer := RemoveFinalizer(longer, start);
    }

    /** Cancels the previous plan, best effort, and assigns the other one. */
    method Move(previous: string, customer: string, plan: string, ghost run: seq<State>, ghost start: State)
        returns (r: Result<Assignment>, ghost longer: seq<State>)
      requires pricing.ClockRuns() && RunFromTo(run, Steps(), start, Now()) && Holds(Now())
      requires inHand.Some? && inHand.value.account == Some(customer) && inHand.value.offer == Some(plan)
      modifies this, kube, pricing
      ensures RunFromTo(longer, Steps(), start, Now()) && Holds(Now()) && inHand == old(inHand)
      ensures kube.obj.value.lastPlan == old(kube.obj.value.lastPlan)
      ensures kube.obj.value.lastCustomer == old(kube.obj.value.lastCustomer)
      ensures r.Ok? ==>
                plan in Listed(pricing.plans, customer) && forall p | p != plan :: !OpenPlan(pricing.plans, customer, p)
      ensures old(Calm()) ==>
                && Calm() && references == old(references)
                && (customer != "" && plan != "" && "" !in Listed(old(pricing.plans), customer) ==> r.Ok?)
      // The previous plan is ended first, at a reading of its own.
      ensures (old(Calm()) && r.Ok? && customer != "" && previous !in {"", plan}
               && previous in Listed(old(pricing.plans), customer)
               && Active(Listed(old(pricing.plans), customer)[previous], pricing.readings(old(pricing.clockReads)))) ==>
                && pricing.clockReads > old(pricing.clockReads) + 1
                && SwappedInTwo(Listed(old(pricing.plans), customer), Listed(pricing.plans, customer), previous, plan,
                                pricing.readings(old(pricing.clockReads)), pricing.readings(old(pricing.clockReads) + 1),
                                pricing.readings(pricing.clockReads - 1))
    {
      hide Step, RunFromTo, Calm, OpenPlan, OpensNothing, SwapDone, SwappedInTwo, Ended, Active, Listed;
      longer := run;
      if previous != "" && previous != plan {
        longer := UsersAct(longer, start);
        var cancelled;
        cancelled, longer := Cancel(customer, previous, longer, start);
      }
      longer := UsersAct(longer, start);
      ghost var middle, at := Listed(pricing.plans, customer), pricing.clockReads;
      ghost var calm := pricing.FailureFree();
      r, longer := Assign(customer, plan, longer, start);
      if r.Ok? && calm {
        SwapsInTwo(middle, Listed(pricing.plans, customer), plan, pricing.readings(at),
                   pricing.readings(pricing.clockReads - 1));
      }
    }

    /** Moves the customer away from the remembered plan, and remembers the new one. */
    method SwapPlan(o: Object, customer: string, plan: string, ghost run: seq<State>, ghost start: State)
        returns (ghost longer: seq<State>)
      requires pricing.ClockRuns() && RunFromTo(run, Steps(), start, Now()) && Holds(Now())
      requires kube.obj.value.lastPlan == o.lastPlan && kube.obj.value.lastCustomer == o.lastCustomer
      requires inHand.Some? && inHand.value.account == Some(customer) && inHand.value.offer == Some(plan)
      modifies this, kube, pricing
      ensures RunFromTo(longer, Steps(), start, Now())
      ensures old(Calm()) ==>
                && references == old(references)
                && (customer != "" && plan != "" && "" !in Listed(old(pricing.plans), customer) ==>
                      Remembered(customer, plan))
      // The remembered plan is ended first, at a reading of its own.
      ensures (old(Calm()) && customer != "" && plan != "" && "" !in Listed(old(pricing.plans), customer)
               && o.lastPlan !in {"", plan} && o.lastPlan in Listed(old(pricing.plans), customer)
               && Active(Listed(old(pricing.plans), customer)[o.lastPlan], pricing.readings(old(pricing.clockReads)))) ==>
                && pricing.clockReads > old(pricing.clockReads) + 1
                && SwappedInTwo(Listed(old(pricing.plans), customer), Listed(pricing.plans, customer), o.lastPlan, plan,
                                pricing.readings(old(pricing.clockReads)), pricing.readings(old(pricing.clockReads) + 1),
                                pricing.readings(pricing.clockReads - 1))
    {
      hide Step, RunFromTo, Calm, OpenPlan, SwappedInTwo, Active, Listed;
      var outcome;
      outcome, longer := Move(o.lastPlan, customer, plan, run, start);
      if outcome.Err? {
        return;
      }
      if o.lastPlan != plan || o.lastCustomer != customer {
        longer := UsersAct(longer, start);
        longer := Annotate(customer, plan, longer, start);
      }
    }

    /** The assignment of a live entitlement. */
    method ReconcileLive(o: Object, planExists: bool, ghost run: seq<State>, ghost start: State)
        returns (ghost longer: seq<State>)
      requires pricing.ClockRuns() && RunFromTo(run, Steps(), start, Now()) && kube.obj == Some(o) && o.finalizer && !o.deleting
      modifies this, kube, pricing
      ensures RunFromTo(longer, Steps(), start, Now())
      ensures old(Calm()) ==>
                && references == old(references)
                && (Assignable(references, planExists) && "" !in Listed(old(pricing.plans), references.account.value) ==>
                      Remembered(references.account.value, references.offer.value.uid))
    {
      hide Step, RunFromTo, Calm, OpenPlan, Remembered;
      longer := UsersAct(run, start);
      var account, offer;
      account, longer := ReadAccount(false, longer, start);
      if account.None? {
        return;
      }
      longer := UsersAct(longer, start);
      offer, longer := ReadOffer(longer, start);
      if offer.None? || !offer.value.generallyAvailable || !offer.value.priced || !planExists {
        return;
      }
      longer := SwapPlan(o, account.value, offer.value.uid, longer, start);
    }

    /** One reconcile, whatever fails on the way and whatever users do meanwhile. */
    method Reconcile(planExists: bool) returns (ghost run: seq<State>)
      requires pricing.ClockRuns()
      modifies this, kube, pricing
      ensures RunFromTo(run, Steps(), old(Now()), Now())
      // Left alone, it lets a deleted entitlement go, and assigns and remembers the plan of a live one.
      ensures (old(Calm()) && Holds(old(Now()))) ==>
                && references == old(references)
                && if old(kube.obj).value.deleting then kube.obj.None?
                   else Assignable(references, planExists) && "" !in Listed(old(pricing.plans), references.account.value) ==>
                          Remembered(references.account.value, references.offer.value.uid)
    {
      hide Step, RunFromTo, Calm, OpenPlan;
      ghost var start := Now();
      run := [start];
      NoSteps(start);
      run := UsersAct(run, start);
      var found, o := kube.Get();
      if !found {
        return;
      }
      if o.deleting {
        run := ReconcileDelete(o, run, start);
        return;
      }
      if !o.finalizer {
        run := UsersAct(run, start);
        run := AddFinalizer(run, start);
        return;
      }
      run := ReconcileLive(o, planExists, run, start);
    }
  }

  lemma NoSteps(st: State)
    ensures RunFromTo([st], Steps(), st, st)
  {
  }

  /** The second half of a swap in two. */
  lemma SwapsInTwo(middle: Assignments, after: Assignments, plan: string, now: int, last: int)
    requires SwapDone(middle, after, plan, None, now, last, false)
    ensures forall start: Assignments, previous, at |
              previous in start && middle == start[previous := Ended(start[previous], at)] ::
                SwappedInTwo(start, after, previous, plan, at, now, last)
  {
  }

  lemma SameOpens(plans: Plans, customer: string, plan: string)
    ensures OpensOnly(plans, plans, customer, plan)
  {
  }

  lemma AssignIsStep(before: State, after: State, customer: string, plan: string)
    requires Assigns(before, after, customer, plan) && OpensOnly(before.plans, after.plans, customer, plan)
    ensures Step(before, after)
  {
  }

  lemma IdleStep(st: State)
    ensures st.obj.Some? ==> Step(st, st)
  {
    assert st.obj.Some? ==> st == AfterUsers(st, Idle, st.account, st.offer);
  }

  lemma CancelOpensNothing(before: Plans, after: Plans, customer: string, plan: string)
    requires OnlyPlan(before, after, customer, plan)
    requires after != before ==>
               plan in Listed(before, customer) && plan in Listed(after, customer) && !OpenEnded(Listed(after, customer)[plan])
    ensures OpensNothing(before, after)
    ensures forall p | p in Listed(after, customer) :: p in Listed(before, customer)
  {
    if after != before {
      SameElsewhere(Listed(before, customer), Listed(after, customer), plan);
    }
    forall c, p | OpenPlan(after, c, p) ensures OpenPlan(before, c, p) {
      if c != customer {
        assert Listed(after, c) == Listed(before, c);
      } else if after != before {
        SameElsewhere(Listed(before, customer), Listed(after, customer), plan);
      }
    }
  }

  /** Whatever an assignment did, finished or not, it opened no plan but the wanted one. */
  lemma EnsureOpensOnly(before: Plans, after: Plans, customer: string, plan: string, now: int, last: int, rejected: bool)
    requires OthersUntouched(before, after, customer) && now >= 0
    requires SomeSwapped(Listed(before, customer), Listed(after, customer), plan, now, last, rejected)
    ensures OpensOnly(before, after, customer, plan)
  {
    forall c, p | OpenPlan(after, c, p) && !(c == customer && p == plan) ensures OpenPlan(before, c, p) {
      if c != customer {
        assert Listed(after, c) == Listed(before, c);
      } else {
        assert p in Listed(before, customer);
        assert MaybeSwapped(Listed(before, customer)[p], Listed(after, customer)[p], now, last, rejected);
      }
    }
  }
}
