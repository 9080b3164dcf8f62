/** The BillingAccount reconciler's finalizer: a customer is enabled only while the account that
    can disable it still exists. */
module AccountFinalizer {
  import opened Customers
  import opened KubeObjects
  import opened Results

  /** The account object under one name, all customers, the uids that objects of this name have had,
      and those among them that ever carried the force-delete annotation. */
  datatype State = State(obj: Option<Object>, customers: map<string, Customer>, managed: set<string>, forced: set<string>)

  predicate Enabled(customers: map<string, Customer>, uid: string) { uid in customers && customers[uid].enabled }

  predicate Owns(st: State, uid: string) { st.obj.Some? && st.obj.value.uid == uid && st.obj.value.finalizer }

  /** Steps of users: a new object's uid is new, and has no customer yet. */
  ghost predicate UserStep(before: State, after: State) {
    exists act :: after == AfterAct(before, act) && NewUid(before, act)
  }

  predicate NewUid(st: State, act: UserAct) {
    act.Create? ==> act.uid !in st.managed && !Enabled(st.customers, act.uid)
  }

  function AfterAct(st: State, act: UserAct): State {
    st.(obj := AfterUser(st.obj, act),
        managed := st.managed + if act.Create? && st.obj.None? then {act.uid} else {},
        forced := st.forced + if act == Annotate(true) && st.obj.Some? then {st.obj.value.uid} else {})
  }

  /** The steps the controller takes, each a single request that may or may not have had its effect. */
  ghost predicate ControllerStep(before: State, after: State, allowDelete: bool) {
    || after == before
    || after == before.(obj := WithFinalizer(before.obj))
    // an upsert, of the customer of an object that holds the finalizer
    || (after == before.(customers := after.customers)
        && exists uid :: Owns(before, uid)
             && forall u | u != uid :: Enabled(after.customers, u) <==> Enabled(before.customers, u))
    // a disable
    || (after == before.(customers := after.customers)
        && forall u | Enabled(after.customers, u) :: Enabled(before.customers, u))
    // the release of an object whose customer is disabled, or that may go without
    || (after == before.(obj := Released(before.obj)) && before.obj.Some?
        && (!Enabled(before.customers, before.obj.value.uid) || before.obj.value.uid in before.forced || allowDelete))
  }

  ghost predicate Step(before: State, after: State, allowDelete: bool) {
    UserStep(before, after) || ControllerStep(before, after, allowDelete)
  }

  ghost function Steps(allowDelete: bool): (State, State) -> bool { (a, b) => Step(a, b, allowDelete) }

  /** An enabled customer of this account name has its object, with the finalizer on, or was let go
      on purpose. */
  ghost predicate Safe(st: State, allowDelete: bool) {
    && (forall uid | uid in st.managed && Enabled(st.customers, uid) :: Owns(st, uid) || uid in st.forced || allowDelete)
    && (st.obj.Some? ==> st.obj.value.uid in st.managed && (st.obj.value.force ==> st.obj.value.uid in st.forced))
  }

  lemma UserKeepsSafe(before: State, after: State, allowDelete: bool)
    requires Safe(before, allowDelete) && UserStep(before, after)
    ensures Safe(after, allowDelete)
  {
  }

  lemma ControllerKeepsSafe(before: State, after: State, allowDelete: bool)
    requires Safe(before, allowDelete) && ControllerStep(before, after, allowDelete)
    ensures Safe(after, allowDelete)
  {
  }

  /** Over every run of users and reconciles, with a failure or a crash between any two steps: an
      account that is gone has an absent or disabled customer, outside force-delete. */
  lemma GoneAccountIsDisabled(run: seq<State>, uid: string, k: nat)
    requires IsRun(run, Steps(false)) && Safe(run[0], false) && k < |run|
    requires uid in run[k].managed && uid !in run[k].forced
    requires run[k].obj.None? || run[k].obj.value.uid != uid
    ensures !Enabled(run[k].customers, uid)
  {
    forall a, b | Step(a, b, false) && Safe(a, false) ensures Safe(b, false) {
      if UserStep(a, b) { UserKeepsSafe(a, b, false); } else { ControllerKeepsSafe(a, b, false); }
    }
    InvariantOverRun(run, Steps(false), (a: State) => Safe(a, false));
  }

  /** The controller with the object it reconciles and the customers it writes. */
  class AccountWorld {
    const kube: KubeObject
    const server: CustomerServer
    const allowDelete: bool
    ghost var managed: set<string>
    ghost var forced: set<string>

    constructor (kube: KubeObject, server: CustomerServer, allowDelete: bool)
      requires kube.obj.None? && forall uid | Enabled(server.customers, uid) :: uid in kube.uids
      ensures this.kube == kube && this.server == server && this.allowDelete == allowDelete
      ensures Consistent() && Safe(Now(), allowDelete)
    {
      this.kube, this.server, this.allowDelete := kube, server, allowDelete;
      managed, forced := {}, {};
    }

    ghost function Now(): State
      reads this, kube, server
    {
      State(kube.obj, server.customers, managed, forced)
    }

    /** Uids are handed out before anything is done under them. */
    ghost predicate Consistent()
      reads this, kube, server
    {
      && managed <= kube.uids
      && (forall uid | Enabled(server.customers, uid) :: uid in kube.uids)
      && (kube.obj.Some? ==> kube.obj.value.uid in managed && (kube.obj.value.force ==> kube.obj.value.uid in forced))
    }

    /** Users act before the controller's next request. */
    method UsersAct(ghost run: seq<State>, ghost start: State) returns (ghost longer: seq<State>)
      requires Consistent() && RunFromTo(run, Steps(allowDelete), start, Now())
      modifies this, kube
      ensures Consistent() && RunFromTo(longer, Steps(allowDelete), start, Now())
      ensures forall uid | Owns(old(Now()), uid) ::
                Owns(Now(), uid) && (old(kube.obj.value.deleting) ==> kube.obj.value.deleting)
      ensures old(forced) <= forced && old(kube.calls) < kube.calls
      ensures old(kube.acts(kube.calls)).Idle? ==> kube.obj == old(kube.obj)
    {
      ghost var before := Now();
      var act := kube.UserActs();
      managed := managed + if act.Create? && before.obj.None? then {act.uid} else {};
      forced := forced + if act == Annotate(true) && before.obj.Some? then {before.obj.value.uid} else {};
      assert Now() == AfterAct(before, act);
      assert UserStep(before, Now());
      OneStep(Steps(allowDelete), before, Now());
      Joined(Steps(allowDelete), run, [before, Now()], start, before, Now());
      longer := run + [before, Now()][1..];
    }

    method AddFinalizer(ghost run: seq<State>, ghost start: State) returns (ghost longer: seq<State>)
      requires Consistent() && RunFromTo(run, Steps(allowDelete), start, Now())
      modifies kube
      ensures Consistent() && RunFromTo(longer, Steps(allowDelete), start, Now())
    {
      ghost var before := Now();
      var e := kube.Write(WithFinalizer(kube.obj));
      OneStep(Steps(allowDelete), before, Now());
      Joined(Steps(allowDelete), run, [before, Now()], start, before, Now());
      longer := run + [before, Now()][1..];
    }

    method Upsert(account: DesiredCustomer, stripeId: string, ghost run: seq<State>, ghost start: State)
        returns (ghost longer: seq<State>)
      requires Consistent() && RunFromTo(run, Steps(allowDelete), start, Now()) && Owns(Now(), account.id)
      modifies server
      ensures Consistent() && RunFromTo(longer, Steps(allowDelete), start, Now())
      ensures old(server.FailureFree()) && account.id != "" ==>
                account.id in server.customers && Synced(account, stripeId, server.customers[account.id])
    {
      ghost var before := Now();
      var r := SyncCustomer(server, account, stripeId);
      assert ControllerStep(before, Now(), allowDelete);
      OneStep(Steps(allowDelete), before, Now());
      Joined(Steps(allowDelete), run, [before, Now()], start, before, Now());
      longer := run + [before, Now()][1..];
    }

    method Disable(uid: string, now: string, ghost run: seq<State>, ghost start: State)
        returns (r: Result<()>, ghost longer: seq<State>)
      requires Consistent() && RunFromTo(run, Steps(allowDelete), start, Now())
      modifies server
      ensures Consistent() && RunFromTo(longer, Steps(allowDelete), start, Now())
      ensures r.Ok? ==> !Enabled(server.customers, uid)
      ensures old(server.FailureFree()) && uid != "" ==> r.Ok?
    {
      ghost var before := Now();
      r := DisableCustomer(server, uid, now);
      assert ControllerStep(before, Now(), allowDelete);
      OneStep(Steps(allowDelete), before, Now());
      Joined(Steps(allowDelete), run, [before, Now()], start, before, Now());
      longer := run + [before, Now()][1..];
    }

    /** Apply with an empty list, or Update where a terminating namespace forbids that. */
    method RemoveFinalizer(ghost run: seq<State>, ghost start: State) returns (ghost longer: seq<State>)
      requires Consistent() && RunFromTo(run, Steps(allowDelete), start, Now()) && kube.obj.Some?
      requires !Enabled(server.customers, kube.obj.value.uid) || kube.obj.value.uid in forced || allowDelete
      modifies kube
      ensures Consistent() && RunFromTo(longer, Steps(allowDelete), start, Now())
      ensures kube.api(old(kube.calls)).Done? && old(kube.obj.value.deleting) ==> kube.obj.None?
    {
      ghost var before := Now();
      var e := kube.Write(Released(kube.obj));
      if e == ApiForbidden && kube.obj.Some? {
        e := kube.Write(Released(kube.obj));
      }
      assert ControllerStep(before, Now(), allowDelete);
      OneStep(Steps(allowDelete), before, Now());
      Joined(Steps(allowDelete), run, [before, Now()], start, before, Now());
      longer := run + [before, Now()][1..];
    }

    method ReconcileDelete(account: Object, now: string, ghost run: seq<State>, ghost start: State)
        returns (ghost longer: seq<State>)
      requires Consistent() && RunFromTo(run, Steps(allowDelete), start, Now())
      requires kube.obj == Some(account) && account.deleting
      modifies this, kube, server
      ensures Consistent() && RunFromTo(longer, Steps(allowDelete), start, Now())
      ensures old(kube.Calm() && server.FailureFree()) && account.finalizer && account.uid != "" ==> kube.obj.None?
    {
      longer := run;
      if !account.finalizer {
        return;
      }
      var force := account.force || allowDelete;
      assert Owns(Now(), account.uid);
      longer := UsersAct(longer, start);
      var disabled;
      disabled, longer := Disable(account.uid, now, longer, start);
      if disabled.Err? && !force {
        return;
      }
      longer := UsersAct(longer, start);
      assert Owns(Now(), account.uid);
      longer := RemoveFinalizer(longer, start);
    }

    /** One reconcile: a run of steps from the state it finds to the state it leaves, whatever fails
        on the way and whatever users do meanwhile. */
    method Reconcile(spec: DesiredCustomer, stripeId: string, now: string) returns (ghost run: seq<State>)
      requires Consistent()
      modifies this, kube, server
      ensures Consistent() && RunFromTo(run, Steps(allowDelete), old(Now()), Now())
      // Left alone, it syncs the customer of a live account and lets a deleted one go.
      ensures (old(kube.Calm() && server.FailureFree()) && old(kube.obj).Some? && old(kube.obj).value.finalizer
               && old(kube.obj).value.uid != "") ==>
                if old(kube.obj).value.deleting then kube.obj.None?
                else var uid := old(kube.obj).value.uid;
                     uid in server.customers && Synced(spec.(id := uid), stripeId, server.customers[uid])
    {
      ghost var start := Now();
      run := [start];
      run := UsersAct(run, start);
      var found, account := kube.Get();
      if !found {
        return;
      }
      if account.deleting {
        run := ReconcileDelete(account, now, run, start);
        return;
      }
      if !account.finalizer {
        run := UsersAct(run, start);
        run := AddFinalizer(run, start);
        return;
      }
      assert Owns(Now(), account.uid);
      run := UsersAct(run, start);
      run := Upsert(spec.(id := account.uid), stripeId, run, start);
    }
  }
}
