/** A Kubernetes object under one controller, and runs of steps around it. Reads are current and
    reconciles of one object do not overlap, but users act at any time. */
module KubeObjects {
  import opened Results

  /** `uid` is new for every object created under the name; the two annotations are the ones a
      BillingEntitlement leaves behind, "" when absent. */
  datatype Object = Object(
    uid: string, deleting: bool, finalizer: bool, force: bool, lastPlan: string, lastCustomer: string)

  datatype UserAct = Idle | Create(uid: string) | RequestDelete | Annotate(force: bool)

  /** One API request: done, lost before or after its effect, or refused because the namespace is
      being terminated. */
  datatype ApiFault = Done | LostBefore | LostAfter | Forbidden

  datatype ApiError = NoError | ApiFailed | ApiForbidden

  /** Only a finalizer keeps an object that a user wants gone. */
  function AfterUser(obj: Option<Object>, act: UserAct): Option<Object> {
    match act
    case Idle => obj
    case Create(uid) => if obj.None? then Some(Object(uid, false, false, false, "", "")) else obj
    case RequestDelete =>
      if obj.None? then None else if obj.value.finalizer then Some(obj.value.(deleting := true)) else None
    case Annotate(force) => if obj.None? then None else Some(obj.value.(force := force))
  }

  function WithFinalizer(obj: Option<Object>): Option<Object> {
    if obj.None? then None else Some(obj.value.(finalizer := true))
  }

  function Released(obj: Option<Object>): Option<Object> {
    if obj.None? || obj.value.deleting then None else Some(obj.value.(finalizer := false))
  }

  class KubeObject {
    const api: nat -> ApiFault
    const acts: nat -> UserAct
    var calls: nat
    var obj: Option<Object>
    /** Every uid handed out so far; none is handed out twice. */
    var uids: set<string>

    /** From here on users keep still and no API request goes wrong. */
    ghost predicate Calm()
      reads this
    {
      forall k | k >= calls :: api(k).Done? && acts(k).Idle?
    }

    /** What a user does before the next request. */
    method UserActs() returns (act: UserAct)
      modifies this
      ensures calls == old(calls) + 1 && obj == AfterUser(old(obj), act)
      ensures act == acts(old(calls)) || act.Idle?
      ensures act.Create? ==> act.uid !in old(uids)
      ensures uids == old(uids) + if act.Create? then {act.uid} else {}
    {
      act := acts(calls);
      if act.Create? && act.uid in uids {
        act := Idle;
      }
      calls, obj := calls + 1, AfterUser(obj, act);
      if act.Create? {
        uids := uids + {act.uid};
      }
    }

    method Get() returns (found: bool, o: Object)
      ensures found ==> obj == Some(o)
      ensures api(calls).Done? ==> (found <==> obj.Some?)
    {
      if api(calls).Done? && obj.Some? {
        return true, obj.value;
      }
      return false, Object("", false, false, false, "", "");
    }

    method Write(now: Option<Object>) returns (e: ApiError)
      modifies this`obj
      ensures obj == old(obj) || obj == now
      ensures e == NoError ==> obj == now
      ensures api(calls).Done? ==> e == NoError
    {
      match api(calls) {
        case Done => obj := now; e := NoError;
        case LostBefore => e := ApiFailed;
        case LostAfter => obj := now; e := ApiFailed;
        case Forbidden => e := ApiForbidden;
      }
    }
  }

  // ---- runs ---------------------------------------------------------------

  /** A run: every state follows from the one before by one step. A crash is a run that ends early. */
  ghost predicate IsRun<S(!new)>(run: seq<S>, step: (S, S) -> bool) {
    |run| > 0 && forall k | 0 < k < |run| :: step(run[k - 1], run[k])
  }

  ghost predicate RunFromTo<S(!new)>(run: seq<S>, step: (S, S) -> bool, from: S, to: S) {
    IsRun(run, step) && run[0] == from && run[|run| - 1] == to
  }

  lemma OneStep<S(!new)>(step: (S, S) -> bool, from: S, to: S)
    requires step(from, to)
    ensures RunFromTo([from, to], step, from, to)
  {
  }

  lemma Joined<S(!new)>(step: (S, S) -> bool, a: seq<S>, b: seq<S>, from: S, middle: S, to: S)
    requires RunFromTo(a, step, from, middle) && RunFromTo(b, step, middle, to)
    ensures RunFromTo(a + b[1..], step, from, to)
  {
  }

  lemma {:induction false} InvariantOverRun<S(!new)>(run: seq<S>, step: (S, S) -> bool, inv: S -> bool)
    requires IsRun(run, step) && inv(run[0])
    requires forall a, b :: step(a, b) && inv(a) ==> inv(b)
    ensures forall k | 0 <= k < |run| :: inv(run[k])
  {
    if |run| > 1 {
      var shorter := run[..|run| - 1];
      InvariantOverRun(shorter, step, inv);
      assert step(run[|run| - 2], run[|run| - 1]) && inv(shorter[|run| - 2]);
    }
  }
}
