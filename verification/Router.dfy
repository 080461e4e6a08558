/** The router's map of online gateways, each managed by the forwarder that last reported it,
    and its agreement with the integration's set of desired subscriptions. */
module Router {
  import opened Words
  import opened Frames
  import Mqtt

  const TIMEOUT := 5 * MINUTE

  type ForwarderId = int

  datatype Managed = Managed(forwarder: ForwarderId, lastSeen: int)

  type Gateways = map<Eui, Managed>

  predicate TimedOut(m: Managed, now: int) { now - m.lastSeen > TIMEOUT }

  function WentOnline(gateways: Gateways, forwarder: ForwarderId, id: Eui, now: int): Gateways {
    gateways[id := Managed(forwarder, now)]
  }

  function WentOffline(gateways: Gateways, id: Eui): Gateways { gateways - {id} }

  /** A sweep in which every subscription call succeeds. */
  function Swept(gateways: Gateways, now: int): Gateways {
    map g | g in gateways && !TimedOut(gateways[g], now) :: gateways[g]
  }

  /** The gateways a timeout sweep is after, and those a disconnecting forwarder leaves. */
  function Expired(gateways: Gateways, now: int): set<Eui> {
    set g | g in gateways && TimedOut(gateways[g], now)
  }

  function ManagedBy(gateways: Gateways, forwarder: ForwarderId): set<Eui> {
    set g | g in gateways && gateways[g].forwarder == forwarder
  }

  // ---------- the router and the integration over whole runs ----------

  datatype State = State(gateways: Gateways, desired: set<Eui>)

  /** `removed` are the gateways a sweep got to before a subscription call failed, if one did. */
  datatype Action =
    | Online(forwarder: ForwarderId, gateway: Eui, now: int, calls: bool)
    | Offline(gateway: Eui, calls: bool)
    | TimeoutSweep(now: int, removed: set<Eui>)
    | Disconnect(forwarder: ForwarderId, removed: set<Eui>)

  predicate Enabled(s: State, a: Action) {
    match a
    case TimeoutSweep(now, removed) => removed <= Expired(s.gateways, now)
    case Disconnect(forwarder, removed) => removed <= ManagedBy(s.gateways, forwarder)
    case _ => true
  }

  function Remove(s: State, removed: set<Eui>, provided: Option<Eui>): State {
    State(s.gateways - removed, s.desired - (if provided.Some? then removed - {provided.value} else removed))
  }

  function Apply(s: State, a: Action, provided: Option<Eui>): State
    requires Enabled(s, a)
  {
    match a
    case Online(forwarder, gateway, now, calls) =>
      if !calls then s
      else State(WentOnline(s.gateways, forwarder, gateway, now), Mqtt.Desire(s.desired, true, gateway, provided))
    case Offline(gateway, calls) =>
      if !calls then s
      else State(WentOffline(s.gateways, gateway), Mqtt.Desire(s.desired, false, gateway, provided))
    case TimeoutSweep(_, removed) => Remove(s, removed, provided)
    case Disconnect(_, removed) => Remove(s, removed, provided)
  }

  predicate Allowed(s: State, actions: seq<Action>, provided: Option<Eui>)
    decreases |actions|
  {
    actions == [] || (Enabled(s, actions[0]) && Allowed(Apply(s, actions[0], provided), actions[1..], provided))
  }

  function Run(s: State, actions: seq<Action>, provided: Option<Eui>): State
    requires Allowed(s, actions, provided)
    decreases |actions|
  {
    if actions == [] then s else Run(Apply(s, actions[0], provided), actions[1..], provided)
  }

  /** The same gateways, apart from one the authentication provides, which is always desired. */
  ghost predicate Agree(gateways: Gateways, desired: set<Eui>, provided: Option<Eui>) {
    && (provided.Some? ==> provided.value in desired)
    && forall id: Eui :: provided != Some(id) ==> (id in gateways <==> id in desired)
  }

  /** In every run, also when sweeps are cut short, the router's gateways and the desired
      subscriptions are the same. */
  lemma {:induction false} AlwaysAgree(s: State, actions: seq<Action>, provided: Option<Eui>)
    requires Agree(s.gateways, s.desired, provided) && Allowed(s, actions, provided)
    ensures var t := Run(s, actions, provided); Agree(t.gateways, t.desired, provided)
    decreases |actions|
  {
    if actions != [] {
      AlwaysAgree(Apply(s, actions[0], provided), actions[1..], provided);
    }
  }

  // ---------- joined with the subscription loop ----------

  /** The router's gateways together with the integration, whose loop runs on its own. */
  datatype Joint = Joint(gateways: Gateways, mqtt: Mqtt.State)

  /** One subscription call of the router. */
  datatype Call = Call(subscribe: bool, gateway: Eui)

  /** Steps of the router with the calls it issues, and steps of the loop, in any order. A sweep
      with which the loop interferes is several sweeps that remove fewer gateways each. */
  datatype JointAction =
    | ByRouter(action: Action, calls: seq<Call>)
    | ByLoop(step: Mqtt.Action)

  /** A sweep unsubscribes what it removes in the arbitrary order in which the map is ranged over. */
  ghost predicate Unsubscribes(calls: seq<Call>, removed: set<Eui>) {
    forall c: Call :: c in calls <==> !c.subscribe && c.gateway in removed
  }

  ghost predicate Issues(a: Action, calls: seq<Call>) {
    match a
    case Online(_, gateway, _, true) => calls == [Call(true, gateway)]
    case Offline(gateway, true) => calls == [Call(false, gateway)]
    case TimeoutSweep(_, removed) => Unsubscribes(calls, removed)
    case Disconnect(_, removed) => Unsubscribes(calls, removed)
    case _ => calls == []
  }

  ghost predicate JointEnabled(j: Joint, a: JointAction) {
    match a
    case ByRouter(action, calls) => Enabled(State(j.gateways, j.mqtt.desired), action) && Issues(action, calls)
    case ByLoop(step) => !step.SetSubscription? && Mqtt.Enabled(j.mqtt, step)
  }

  /** The integration after the calls. */
  function Called(m: Mqtt.State, calls: seq<Call>, provided: Option<Eui>): Mqtt.State {
    if calls == [] then m
    else
      var before := Called(m, calls[..|calls| - 1], provided);
      var last := calls[|calls| - 1];
      Mqtt.Apply(before, Mqtt.SetSubscription(last.subscribe, last.gateway), provided)
  }

  ghost function JointApply(j: Joint, a: JointAction, provided: Option<Eui>): Joint
    requires JointEnabled(j, a)
  {
    match a
    case ByRouter(action, calls) =>
      Joint(Apply(State(j.gateways, j.mqtt.desired), action, provided).gateways, Called(j.mqtt, calls, provided))
    case ByLoop(step) => j.(mqtt := Mqtt.Apply(j.mqtt, step, provided))
  }

  ghost predicate JointAllowed(j: Joint, actions: seq<JointAction>, provided: Option<Eui>)
    decreases |actions|
  {
    actions == [] || (JointEnabled(j, actions[0]) && JointAllowed(JointApply(j, actions[0], provided), actions[1..], provided))
  }

  ghost function JointRun(j: Joint, actions: seq<JointAction>, provided: Option<Eui>): Joint
    requires JointAllowed(j, actions, provided)
    decreases |actions|
  {
    if actions == [] then j else JointRun(JointApply(j, actions[0], provided), actions[1..], provided)
  }

  function JointStart(provided: Option<Eui>): Joint {
    Joint(map[], Mqtt.State(if provided.Some? then {provided.value} else {}, {}, {}, None))
  }

  lemma {:induction false} CalledUnsubscribes(m: Mqtt.State, calls: seq<Call>, provided: Option<Eui>)
    requires forall c <- calls :: !c.subscribe
    ensures var t := Called(m, calls, provided);
      && t == m.(desired := t.desired)
      && forall id: Eui :: id in t.desired <==> id in m.desired && (provided == Some(id) || Call(false, id) !in calls)
  {
    if calls != [] {
      var init, last := calls[..|calls| - 1], calls[|calls| - 1];
      assert last in calls && forall c <- init :: c in calls;
      CalledUnsubscribes(m, init, provided);
      assert calls == init + [last];
    }
  }

  lemma CalledOnce(m: Mqtt.State, c: Call, provided: Option<Eui>)
    ensures Called(m, [c], provided) == m.(desired := Mqtt.Desire(m.desired, c.subscribe, c.gateway, provided))
  {
    assert [c][..0] == [];
  }

  /** The calls a router action issues change the desired set as the action does, and nothing else. */
  lemma CallsOfAction(j: Joint, a: Action, calls: seq<Call>, provided: Option<Eui>)
    requires JointEnabled(j, ByRouter(a, calls))
    ensures Called(j.mqtt, calls, provided) ==
      j.mqtt.(desired := Apply(State(j.gateways, j.mqtt.desired), a, provided).desired)
  {
    match a
    case Online(_, gateway, _, true) => CalledOnce(j.mqtt, Call(true, gateway), provided);
    case Offline(gateway, true) => CalledOnce(j.mqtt, Call(false, gateway), provided);
    case TimeoutSweep(_, removed) => CalledUnsubscribes(j.mqtt, calls, provided);
    case Disconnect(_, removed) => CalledUnsubscribes(j.mqtt, calls, provided);
    case _ =>
  }

  ghost predicate JointInv(j: Joint, provided: Option<Eui>) {
    Agree(j.gateways, j.mqtt.desired, provided) && Mqtt.PassInv(j.mqtt)
  }

  lemma JointApplyKeeps(j: Joint, a: JointAction, provided: Option<Eui>)
    requires JointInv(j, provided) && JointEnabled(j, a)
    ensures JointInv(JointApply(j, a, provided), provided)
  {
    match a
    case ByRouter(action, calls) => CallsOfAction(j, action, calls, provided);
    case ByLoop(step) => Mqtt.ApplyKeepsPass(j.mqtt, step, provided);
  }

  lemma {:induction false} JointRunKeeps(j: Joint, actions: seq<JointAction>, provided: Option<Eui>)
    requires JointInv(j, provided) && JointAllowed(j, actions, provided)
    ensures JointInv(JointRun(j, actions, provided), provided)
    decreases |actions|
  {
    if actions != [] {
      JointApplyKeeps(j, actions[0], provided);
      JointRunKeeps(JointApply(j, actions[0], provided), actions[1..], provided);
    }
  }

  /** What agrees with the same gateways is the same. */
  lemma AgreeUnique(gateways: Gateways, a: set<Eui>, b: set<Eui>, provided: Option<Eui>)
    requires Agree(gateways, a, provided)
    ensures Agree(gateways, b, provided) <==> a == b
  {
    if Agree(gateways, b, provided) {
      forall id: Eui ensures id in a <==> id in b { }
    }
  }

  /** A pass has worked off everything it found different. */
  predicate PassSucceeded(m: Mqtt.State) {
    m.pass.Some? && m.pass.value.done == Mqtt.Diff(m.pass.value.snapshot, m.pass.value.found)
  }

  /** In every joint run the desired set agrees with the router's gateways, whatever the loop is
      doing; and when a pass did everything it found to do, the recorded set agrees with them too
      if and only if the desired set is then what the pass began with. */
  lemma ThreeLayersAgree(actions: seq<JointAction>, provided: Option<Eui>)
    requires JointAllowed(JointStart(provided), actions, provided)
    ensures var j := JointRun(JointStart(provided), actions, provided);
      && Agree(j.gateways, j.mqtt.desired, provided)
      && (PassSucceeded(j.mqtt) ==>
          (Agree(j.gateways, j.mqtt.recorded, provided) <==> j.mqtt.desired == j.mqtt.pass.value.snapshot))
  {
    JointRunKeeps(JointStart(provided), actions, provided);
    var j := JointRun(JointStart(provided), actions, provided);
    AgreeUnique(j.gateways, j.mqtt.desired, j.mqtt.recorded, provided);
    if j.mqtt.pass.Some? {
      Mqtt.FullPass(j.mqtt);
    }
  }

  /** The last successful report about a gateway in a run, None when it was removed since. */
  function LastReport(actions: seq<Action>, id: Eui): Option<Managed> {
    if actions == [] then None
    else
      match actions[|actions| - 1]
      case Online(forwarder, gateway, now, true) =>
        if gateway == id then Some(Managed(forwarder, now)) else LastReport(actions[..|actions| - 1], id)
      case Offline(gateway, true) =>
        if gateway == id then None else LastReport(actions[..|actions| - 1], id)
      case TimeoutSweep(_, removed) =>
        if id in removed then None else LastReport(actions[..|actions| - 1], id)
      case Disconnect(_, removed) =>
        if id in removed then None else LastReport(actions[..|actions| - 1], id)
      case _ => LastReport(actions[..|actions| - 1], id)
  }

  function Lookup(gateways: Gateways, id: Eui): Option<Managed> {
    if id in gateways then Some(gateways[id]) else None
  }

  lemma {:induction false} RunInit(s: State, actions: seq<Action>, provided: Option<Eui>)
    requires actions != [] && Allowed(s, actions, provided)
    ensures var init, last := actions[..|actions| - 1], actions[|actions| - 1];
      && Allowed(s, init, provided) && Enabled(Run(s, init, provided), last)
      && Run(s, actions, provided) == Apply(Run(s, init, provided), last, provided)
    decreases |actions|
  {
    var t, rest := Apply(s, actions[0], provided), actions[1..];
    if rest != [] {
      RunInit(t, rest, provided);
      assert actions[..|actions| - 1][1..] == rest[..|rest| - 1];
    }
  }

  /** A gateway is managed by the forwarder that most recently reported it online. */
  lemma {:induction false} ManagedByLastReporter(actions: seq<Action>, desired: set<Eui>, provided: Option<Eui>, id: Eui)
    requires Allowed(State(map[], desired), actions, provided)
    ensures Lookup(Run(State(map[], desired), actions, provided).gateways, id) == LastReport(actions, id)
  {
    if actions != [] {
      RunInit(State(map[], desired), actions, provided);
      ManagedByLastReporter(actions[..|actions| - 1], desired, provided, id);
    }
  }

  // ---------- the code ----------

  class Router {
    const integration: Mqtt.Backend
    var gateways: Gateways

    ghost predicate Valid()
      reads this, integration
    {
      integration.Valid() && Agree(gateways, integration.gateways, integration.provided)
    }

    ghost function View(): State
      reads this, integration
    {
      State(gateways, integration.gateways)
    }

    constructor (provided: Option<Eui>)
      ensures Valid() && gateways == map[] && fresh(integration) && integration.provided == provided
    {
      gateways := map[];
      integration := new Mqtt.Backend(provided);
    }

    /** A subscription call; `calls` tells whether it gets through. */
    method SetGatewaySubscription(subscribe: bool, id: Eui, calls: bool) returns (ok: bool)
      requires integration.Valid()
      modifies integration`gateways
      ensures integration.Valid() && ok == calls
      ensures integration.gateways ==
        if calls then Mqtt.Desire(old(integration.gateways), subscribe, id, integration.provided)
        else old(integration.gateways)
    {
      if !calls {
        return false;
      }
      integration.SetGatewaySubscription(subscribe, id);
      return true;
    }

    method GatewayOnline(forwarder: ForwarderId, id: Eui, now: int, calls: bool)
      requires Valid()
      modifies this, integration`gateways
      ensures Valid()
      ensures View() == Apply(old(View()), Online(forwarder, id, now, calls), integration.provided)
    {
      var ok := SetGatewaySubscription(true, id, calls);
      if ok {
        gateways := gateways[id := Managed(forwarder, now)];
      }
    }

    method GatewayOffline(id: Eui, calls: bool)
      requires Valid()
      modifies this, integration`gateways
      ensures Valid()
      ensures View() == Apply(old(View()), Offline(id, calls), integration.provided)
    {
      var ok := SetGatewaySubscription(false, id, calls);
      if ok {
        gateways := gateways - {id};
      }
    }

    /** Removes gateways one by one until a subscription call fails. */
    method RemoveAll(targets: set<Eui>, failing: set<Eui>) returns (removed: set<Eui>)
      requires Valid() && targets <= gateways.Keys
      modifies this, integration`gateways
      ensures Valid() && removed <= targets && removed !! failing
      ensures View() == Remove(old(View()), removed, integration.provided)
      ensures removed == targets || exists id <- targets - removed :: id in failing
    {
      removed := {};
      var todo := targets;
      while todo != {}
        invariant Valid() && todo <= targets && removed == targets - todo && removed !! failing
        invariant View() == Remove(old(View()), removed, integration.provided)
        decreases todo
      {
        var id :| id in todo;
        var ok := SetGatewaySubscription(false, id, id !in failing);
        if !ok {
          return;
        }
        gateways := gateways - {id};
        removed := removed + {id};
        todo := todo - {id};
      }
    }

    /** The forwarder's stream ended. When all calls succeed none of its gateways remains. */
    method AllGatewaysOffline(forwarder: ForwarderId, failing: set<Eui>) returns (removed: set<Eui>)
      requires Valid()
      modifies this, integration`gateways
      ensures Valid() && removed <= ManagedBy(old(gateways), forwarder)
      ensures View() == Apply(old(View()), Disconnect(forwarder, removed), integration.provided)
      ensures forall g :: g in removed ==> old(gateways)[g].forwarder == forwarder
      ensures (forall g :: g in gateways ==> gateways[g].forwarder != forwarder) || exists id <- ManagedBy(gateways, forwarder) :: id in failing
    {
      var targets := set g | g in gateways && gateways[g].forwarder == forwarder;
      removed := RemoveAll(targets, failing);
    }

    method CleanupTimedOutGateways(now: int, failing: set<Eui>) returns (removed: set<Eui>)
      requires Valid()
      modifies this, integration`gateways
      ensures Valid() && removed <= Expired(old(gateways), now)
      ensures View() == Apply(old(View()), TimeoutSweep(now, removed), integration.provided)
      ensures forall g :: g in removed ==> now - old(gateways)[g].lastSeen > 300_000_000_000
      ensures gateways == Swept(old(gateways), now) || exists id <- Expired(gateways, now) :: id in failing
      ensures (forall g :: g in gateways ==> now - gateways[g].lastSeen <= 300_000_000_000)
        || exists id <- Expired(gateways, now) :: id in failing
    {
      var targets := set g | g in gateways && now - gateways[g].lastSeen > TIMEOUT;
      removed := RemoveAll(targets, failing);
    }

    /** The forwarder a downlink is handed to; an identifier that does not decode is looked up
        as the zero identifier. */
    method SendDownlinkFrame(addressed: Option<Eui>) returns (forwarder: Option<ForwarderId>)
      ensures var managed := Lookup(gateways, addressed.GetOr(0));
        forwarder == if managed.Some? then Some(managed.value.forwarder) else None
    {
      var id := if addressed.Some? then addressed.value else 0;
      forwarder := None;
      var todo := gateways.Keys;
      while todo != {}
        invariant todo <= gateways.Keys
        invariant forwarder == if id in gateways && id !in todo then Some(gateways[id].forwarder) else None
        decreases todo
      {
        var g :| g in todo;
        todo := todo - {g};
        if g == id {
          forwarder := Some(gateways[g].forwarder);
        }
      }
    }
  }
}
