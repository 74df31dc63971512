/** Properties of the subscription contract over any sequence of calls, and
    the scenarios its test suite exercises, replayed against the class. */
module SubscriptionHistory {
  import opened Outcomes
  import opened Subscription

  /** A state-changing call to the subscription contract (the three queries change nothing). */
  datatype Call =
    | CreatePlanCall(name: string, price: nat, duration: nat, features: seq<string>)
    | SubscribeCall(sender: Principal, planId: nat, now: nat)

  function Apply(g: Registry, c: Call): Registry {
    match c
    case CreatePlanCall(n, p, d, f) => g.CreatePlan(n, p, d, f).0
    case SubscribeCall(s, p, t) => g.Subscribe(s, p, t).0
  }

  /** The registry after performing `calls` in order. */
  function Run(g: Registry, calls: seq<Call>): Registry
    decreases |calls|
  {
    if calls == [] then g else Run(Apply(g, calls[0]), calls[1..])
  }

  /** The plan ids returned by the `create-plan` calls among `calls`, in order. */
  function CreatedIds(g: Registry, calls: seq<Call>): seq<nat>
    decreases |calls|
  {
    if calls == [] then []
    else
      var first := match calls[0]
        case CreatePlanCall(n, p, d, f) => [g.CreatePlan(n, p, d, f).1]
        case SubscribeCall(_, _, _) => [];
      first + CreatedIds(Apply(g, calls[0]), calls[1..])
  }

  /** What `user`'s record should be after `calls`, read from the END of the
      history: the window of the last subscribe by `user` whose plan existed
      at that point, or the record held before `calls` if there is none. */
  function LatestSubscription(g: Registry, calls: seq<Call>, user: Principal): Result<Record>
    decreases |calls|
  {
    if calls == [] then g.GetUserSubscription(user)
    else
      var before := calls[..|calls| - 1];
      var at := Run(g, before);
      match calls[|calls| - 1]
      case SubscribeCall(s, p, t) =>
        if s == user && p in at.plans then Success(Record(p, t, t + at.plans[p].duration * SecondsPerDay))
        else LatestSubscription(g, before, user)
      case CreatePlanCall(_, _, _, _) => LatestSubscription(g, before, user)
  }

  /** Running a history and then one more call is running the longer history. */
  lemma {:induction false} RunSnoc(g: Registry, calls: seq<Call>, c: Call)
    ensures Run(g, calls + [c]) == Apply(Run(g, calls), c)
    decreases |calls|
  {
    if calls != [] {
      assert (calls + [c])[1..] == calls[1..] + [c];
      RunSnoc(Apply(g, calls[0]), calls[1..], c);
    }
  }

  /** Every call keeps the registry's invariant, so it holds after any history. */
  lemma {:induction false} RunValid(g: Registry, calls: seq<Call>)
    requires g.Valid()
    ensures Run(g, calls).Valid()
    decreases |calls|
  {
    if calls != [] {
      match calls[0] {
        case CreatePlanCall(n, p, d, f) => CreatePlanValid(g, n, p, d, f);
        case SubscribeCall(s, p, t) => SubscribeValid(g, s, p, t);
      }
      RunValid(Apply(g, calls[0]), calls[1..]);
    }
  }

  /** Plans are immutable: whatever happens next, an existing plan is still
      found, unchanged, under the same id. */
  lemma {:induction false} RunKeepsPlans(g: Registry, calls: seq<Call>)
    requires g.Valid()
    ensures forall id :: id in g.plans ==> Run(g, calls).GetPlan(id) == g.GetPlan(id)
    decreases |calls|
  {
    if calls != [] {
      var next := Apply(g, calls[0]);
      match calls[0] {
        case CreatePlanCall(n, p, d, f) => CreatePlanValid(g, n, p, d, f);
        case SubscribeCall(s, p, t) => SubscribeValid(g, s, p, t);
      }
      RunKeepsPlans(next, calls[1..]);
      forall id | id in g.plans
        ensures Run(g, calls).GetPlan(id) == g.GetPlan(id)
      {
        assert next.GetPlan(id) == g.GetPlan(id);
      }
    }
  }

  /** Plan ids are handed out one after another: the i-th plan created gets
      lastPlanId + 1 + i, so the ids are strictly increasing and gapless. */
  lemma {:induction false} CreatedIdsGapless(g: Registry, calls: seq<Call>)
    ensures Run(g, calls).lastPlanId == g.lastPlanId + |CreatedIds(g, calls)|
    ensures forall i :: 0 <= i < |CreatedIds(g, calls)| ==> CreatedIds(g, calls)[i] == g.lastPlanId + 1 + i
    ensures forall i, j :: 0 <= i < j < |CreatedIds(g, calls)| ==> CreatedIds(g, calls)[i] < CreatedIds(g, calls)[j]
    decreases |calls|
  {
    if calls != [] {
      CreatedIdsGapless(Apply(g, calls[0]), calls[1..]);
    }
  }

  /** `subscribe` replaces rather than stacks: after any history, an
      account's record is the one its most recent successful subscribe wrote. */
  lemma {:induction false} LatestSubscriptionWins(g: Registry, calls: seq<Call>, user: Principal)
    ensures Run(g, calls).GetUserSubscription(user) == LatestSubscription(g, calls, user)
    decreases |calls|
  {
    if calls != [] {
      var before := calls[..|calls| - 1];
      var last := calls[|calls| - 1];
      assert calls == before + [last];
      RunSnoc(g, before, last);
      LatestSubscriptionWins(g, before, user);
    }
  }

  /** A 30-day plan subscribed at time t ends 2,592,000 seconds later: active
      one second after t, expired one second after the end. */
  lemma ThirtyDayWindow(user: Principal, t: nat)
    ensures var (g, planId) := EmptyRegistry().CreatePlan("Basic", 1000, 30, ["f1"]);
      var s := g.Subscribe(user, planId, t).0;
      && planId == 1
      && s.GetUserSubscription(user) == Success(Record(1, t, t + 2592000))
      && s.IsSubscriptionActive(user, t + 1) == Success(true)
      && s.IsSubscriptionActive(user, t + 2592001) == Success(false)
  {
  }

  /** Create "Basic" (1000, 30 days): it gets id 1 and is stored as given. */
  method CreatePlanScenario() returns (planId: Result<nat>, plan: Result<Plan>)
    ensures planId == Success(1)
    ensures plan == Success(Plan("Basic", 1000, 30, ["feature1", "feature2"]))
  {
    var contract := new SubscriptionContract();
    planId := contract.CreatePlan("Basic", 1000, 30, ["feature1", "feature2"]);
    plan := contract.GetPlan(1);
  }

  /** Create a plan, subscribe to it: the record names plan 1, starts now,
      and the subscription is active now. */
  method SubscribeScenario(user: Principal, now: nat)
    returns (subscribed: Result<bool>, record: Result<Record>, active: Result<bool>)
    ensures subscribed == Success(true)
    ensures record.Success? && record.value.planId == 1 && record.value.startTime == now
    ensures active == Success(true)
  {
    var contract := new SubscriptionContract();
    var _ := contract.CreatePlan("Bronze", 500, 15, ["feature1"]);
    subscribed := contract.Subscribe(user, 1, now);
    record := contract.GetUserSubscription(user);
    active := contract.IsSubscriptionActive(user, now);
  }

  /** On a fresh contract: plan 999 is not found, subscribing to it fails,
      and the account has no record and no activity status. */
  method NotFoundScenario(user: Principal, now: nat)
    returns (plan: Result<Plan>, subscribed: Result<bool>, record: Result<Record>, active: Result<bool>)
    ensures plan == Failure(ErrNotFound)
    ensures subscribed == Failure(ErrNotFound)
    ensures record == Failure(ErrNotFound)
    ensures active == Failure(ErrNotFound)
  {
    var contract := new SubscriptionContract();
    plan := contract.GetPlan(999);
    subscribed := contract.Subscribe(user, 999, now);
    record := contract.GetUserSubscription(user);
    active := contract.IsSubscriptionActive(user, now);
  }
}
