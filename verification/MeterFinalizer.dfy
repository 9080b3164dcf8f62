/** The MeterDefinition reconciler's finalizer: no meter outlives the definition that made it. */
module MeterFinalizer {
  import opened KubeObjects
  import opened Meters
  import opened Naming
  import opened Results
  import Server

  datatype Aggregation = Sum | Count | UniqueCount | Max | Min | Latest | Average

  datatype MeterSpec = MeterSpec(
    displayName: string, meterName: string, aggregation: Aggregation, unit: string, dimensions: seq<string>)

  function LabelOf(spec: MeterSpec): string { if spec.displayName == "" then spec.meterName else spec.displayName }

  /** None: Amberflo has no meter for this definition, and the sync is skipped. */
  function DesiredMeterFromDefinition(sha1: Sha1Hex, name: string, spec: MeterSpec): Option<DesiredMeter> {
    match spec.aggregation
    case Sum | Count =>
      Some(DesiredMeter(MeterAPIName(sha1, name), LabelOf(spec), "sum_of_all_usage", [], spec.unit, spec.dimensions))
    case UniqueCount =>
      if spec.dimensions == [] then None
      else
        Some(DesiredMeter(MeterAPIName(sha1, name), LabelOf(spec), "active_users", spec.dimensions, spec.unit,
                          spec.dimensions))
    case Max | Min | Latest | Average => None
  }

  /** The definition object under one name, and the Amberflo account. */
  datatype State = State(obj: Option<Object>, account: Server.State)

  predicate Holds(st: State) { st.obj.Some? && st.obj.value.finalizer }

  ghost predicate UserStep(before: State, after: State) {
    exists act :: after == before.(obj := AfterUser(before.obj, act))
  }

  /** Reconciles of other definitions, which never create a meter under this name. */
  ghost predicate OtherStep(before: State, after: State, name: string) {
    after.obj == before.obj && exists wanted :: wanted != name && MetersStep(before.account, after.account, wanted)
  }

  ghost predicate ControllerStep(before: State, after: State, name: string) {
    || after == before.(obj := WithFinalizer(before.obj))
    // a create or update, while the object holds the finalizer
    || (after.obj == before.obj && Holds(before) && MetersStep(before.account, after.account, name))
    // a deletion
    || (after.obj == before.obj && (forall id | id in after.account.meters ::
          id in before.account.meters && after.account.meters[id].name == before.account.meters[id].name))
    // the release of the object once the meter is gone
    || (after == before.(obj := Released(before.obj)) && !Server.HasMeter(before.account.meters, name))
  }

  ghost predicate Step(before: State, after: State, name: string) {
    UserStep(before, after) || OtherStep(before, after, name) || ControllerStep(before, after, name)
  }

  ghost function Steps(name: string): (State, State) -> bool { (a, b) => Step(a, b, name) }

  ghost predicate Safe(st: State, name: string) {
    Server.HasMeter(st.account.meters, name) ==> Holds(st)
  }

  lemma StepKeepsSafe(before: State, after: State, name: string)
    requires Safe(before, name) && Step(before, after, name)
    ensures Safe(after, name)
  {
  }

  /** Over every run of users, this reconciler and those of other definitions, with a failure or a
      crash between any two steps: a definition that is gone has no meter under its api name. */
  lemma GoneDefinitionHasNoMeter(run: seq<State>, name: string, k: nat)
    requires IsRun(run, Steps(name)) && Safe(run[0], name) && k < |run| && run[k].obj.None?
    ensures !Server.HasMeter(run[k].account.meters, name)
  {
    forall a, b | Step(a, b, name) && Safe(a, name) ensures Safe(b, name) { StepKeepsSafe(a, b, name); }
    InvariantOverRun(run, Steps(name), (a: State) => Safe(a, name));
  }

  class MeterWorld {
    const kube: KubeObject
    const server: Server.AmberfloServer
    const sha1: Sha1Hex
    const name: string

    constructor (kube: KubeObject, server: Server.AmberfloServer, sha1: Sha1Hex, name: string)
      requires kube.obj.None? && server.state.Valid() && 0 !in server.state.meters
      requires !Server.HasMeter(server.state.meters, MeterAPIName(sha1, name))
      ensures this.kube == kube && this.server == server && this.sha1 == sha1 && this.name == name
      ensures Consistent() && Safe(Now(), ApiName())
    {
      this.kube, this.server, this.sha1, this.name := kube, server, sha1, name;
    }

    function ApiName(): string { MeterAPIName(sha1, name) }

    ghost function Now(): State
      reads kube, server
    {
      State(kube.obj, server.state)
    }

    ghost predicate Consistent()
      reads server
    {
      server.state.Valid() && 0 !in server.state.meters
    }

    method UsersAct(ghost run: seq<State>, ghost start: State) returns (ghost longer: seq<State>)
      requires RunFromTo(run, Steps(ApiName()), start, Now())
      modifies kube
      ensures RunFromTo(longer, Steps(ApiName()), start, Now())
      ensures old(kube.acts(kube.calls)).Idle? ==> kube.obj == old(kube.obj)
      ensures Holds(old(Now())) ==> Holds(Now()) && (old(kube.obj.value.deleting) ==> kube.obj.value.deleting)
      ensures old(kube.calls) < kube.calls
    {
      ghost var before := Now();
      var act := kube.UserActs();
      assert UserStep(before, Now());
      OneStep(Steps(ApiName()), before, Now());
      Joined(Steps(ApiName()), run, [before, Now()], start, before, Now());
      longer := run + [before, Now()][1..];
    }

    method AddFinalizer(ghost run: seq<State>, ghost start: State) returns (ghost longer: seq<State>)
      requires RunFromTo(run, Steps(ApiName()), start, Now())
      modifies kube
      ensures RunFromTo(longer, Steps(ApiName()), start, Now())
    {
      ghost var before := Now();
      var e := kube.Write(WithFinalizer(kube.obj));
      assert UserStep(before, before) by { assert before == before.(obj := AfterUser(before.obj, Idle)); }
      OneStep(Steps(ApiName()), before, Now());
      Joined(Steps(ApiName()), run, [before, Now()], start, before, Now());
      longer := run + [before, Now()][1..];
    }

    method Ensure(desired: DesiredMeter, ghost run: seq<State>, ghost start: State) returns (ghost longer: seq<State>)
      requires Consistent() && RunFromTo(run, Steps(ApiName()), start, Now()) && Holds(Now())
      requires desired.apiName == ApiName()
      modifies server
      ensures Consistent() && RunFromTo(longer, Steps(ApiName()), start, Now())
      ensures (old(server.FailureFree()) && name != "" && desired.meterType != ""
               && Reachable(old(server.state), BuildWireMeter(desired))) ==> Converged(server.state, BuildWireMeter(desired))
    {
      hide MetersStep, ItemsStep, ForeignItemsKept, Converged, Reachable;
      ghost var before := Now();
      MeterAPINameIdempotent(sha1, name);
      assert Shortened(sha1, desired) == desired;
      var r := EnsureMeter(server, sha1, desired);
      StaysNumbered(before.account, server.state, ApiName());
      assert ControllerStep(before, Now(), ApiName());
      OneStep(Steps(ApiName()), before, Now());
      Joined(Steps(ApiName()), run, [before, Now()], start, before, Now());
      longer := run + [before, Now()][1..];
    }

    method Delete(title: string, ghost run: seq<State>, ghost start: State)
        returns (r: Result<()>, ghost longer: seq<State>)
      requires Consistent() && RunFromTo(run, Steps(ApiName()), start, Now())
      modifies server
      ensures Consistent() && RunFromTo(longer, Steps(ApiName()), start, Now())
      ensures r.Ok? ==> !Server.HasMeter(server.state.meters, ApiName())
      ensures old(server.FailureFree()) && DeletableBy(old(server.state.meters), ApiName(), title) ==> r.Ok?
    {
      ghost var before := Now();
      r := DeleteMeter(server, ApiName(), title);
      StaysNumbered(before.account, server.state, ApiName());
      NamesKept(before.account, server.state, ApiName());
      assert ControllerStep(before, Now(), ApiName());
      OneStep(Steps(ApiName()), before, Now());
      Joined(Steps(ApiName()), run, [before, Now()], start, before, Now());
      longer := run + [before, Now()][1..];
    }

    method RemoveFinalizer(ghost run: seq<State>, ghost start: State) returns (ghost longer: seq<State>)
      requires RunFromTo(run, Steps(ApiName()), start, Now()) && !Server.HasMeter(server.state.meters, ApiName())
      modifies kube
      ensures RunFromTo(longer, Steps(ApiName()), start, Now())
      ensures kube.api(old(kube.calls)).Done? && old(kube.obj).Some? && old(kube.obj).value.deleting ==> kube.obj.None?
    {
      ghost var before := Now();
      var e := kube.Write(Released(kube.obj));
      assert UserStep(before, before) by { assert before == before.(obj := AfterUser(before.obj, Idle)); }
      OneStep(Steps(ApiName()), before, Now());
      Joined(Steps(ApiName()), run, [before, Now()], start, before, Now());
      longer := run + [before, Now()][1..];
    }

    /** One reconcile, whatever fails on the way and whatever users do meanwhile. */
    method Reconcile(spec: MeterSpec) returns (ghost run: seq<State>)
      requires Consistent()
      modifies kube, server
      ensures Consistent() && RunFromTo(run, Steps(ApiName()), old(Now()), Now())
      // Left alone, it creates or updates the meter of a live definition and lets a deleted one go.
      ensures (old(kube.Calm() && server.FailureFree()) && Holds(old(Now())) && !old(kube.obj).value.deleting && name != ""
               && DesiredMeterFromDefinition(sha1, name, spec).Some?
               && Reachable(old(server.state), BuildWireMeter(DesiredMeterFromDefinition(sha1, name, spec).value))) ==>
                Converged(server.state, BuildWireMeter(DesiredMeterFromDefinition(sha1, name, spec).value))
      ensures (old(kube.Calm() && server.FailureFree()) && Holds(old(Now())) && old(kube.obj).value.deleting
               && DeletableBy(old(server.state.meters), ApiName(), LabelOf(spec))) ==> kube.obj.None?
    {
      ghost var start := Now();
      run := [start];
      run := UsersAct(run, start);
      var found, definition := kube.Get();
      if !found {
        return;
      }
      if definition.deleting {
        if !definition.finalizer {
          return;
        }
        run := UsersAct(run, start);
        var deleted;
        deleted, run := Delete(LabelOf(spec), run, start);
        if deleted.Err? {
          return;
        }
        run := UsersAct(run, start);
        run := RemoveFinalizer(run, start);
        return;
      }
      if !definition.finalizer {
        run := UsersAct(run, start);
        run := AddFinalizer(run, start);
        return;
      }
      var desired := DesiredMeterFromDefinition(sha1, name, spec);
      if desired.None? {
        return;
      }
      run := UsersAct(run, start);
      run := Ensure(desired.value, run, start);
    }
  }

  /** What convergence means for a definition: an active meter under its api name, of the type its
      aggregation maps to, with its unit and dimensions. */
  lemma MeterMatchesDefinition(st: Server.State, sha1: Sha1Hex, name: string, spec: MeterSpec)
    requires DesiredMeterFromDefinition(sha1, name, spec).Some?
    requires Converged(st, BuildWireMeter(DesiredMeterFromDefinition(sha1, name, spec).value))
    ensures exists id :: id in st.meters && MatchesDefinition(st.meters[id], sha1, name, spec)
  {
  }

  predicate MatchesDefinition(m: Server.Meter, sha1: Sha1Hex, name: string, spec: MeterSpec) {
    && m.name == MeterAPIName(sha1, name) && m.lock.CloseToChanges?
    && m.unit == spec.unit && m.dimensions == spec.dimensions
    && (spec.aggregation.Sum? || spec.aggregation.Count? ==> m.meterType == "sum_of_all_usage" && m.aggregation == [])
    && (spec.aggregation.UniqueCount? ==>
          m.meterType == "active_users" && m.aggregation == spec.dimensions && m.aggregation != [])
  }

  lemma StaysNumbered(before: Server.State, after: Server.State, name: string)
    requires before.Valid() && 0 !in before.meters && MetersStep(before, after, name)
    ensures 0 !in after.meters
  {
  }

  lemma NamesKept(before: Server.State, after: Server.State, name: string)
    requires MetersStep(before, after, name) && OnlyFewer(before.meters, after.meters)
    ensures forall id | id in after.meters :: id in before.meters && after.meters[id].name == before.meters[id].name
  {
  }
}
