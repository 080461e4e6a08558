/** The MQTT integration's gateway subscriptions in three layers: the set that is desired, the
    set recorded as subscribed, and what the broker itself has. A polling loop brings the
    recorded set towards a snapshot of the desired one, while the latter keeps changing. */
module Mqtt {
  import opened Words
  import opened Frames

  /** How one (un)subscribe of the loop can end: the call fails; or the broker carries it out but
      the loop does not count it, because its confirmation is late or the state message after it
      cannot be published; or all succeeds. */
  datatype Result = CallFailed | PublishFailed | Done

  /** A pass of the loop: the desired set when it began, the recorded set it found, the
      operations still to do, and the gateways done with successfully. */
  datatype Pass = Pass(
    snapshot: set<Eui>, found: set<Eui>,
    subscribe: seq<Eui>, unsubscribe: seq<Eui>,
    done: set<Eui>)

  datatype State = State(desired: set<Eui>, recorded: set<Eui>, broker: set<Eui>, pass: Option<Pass>)

  /** With the connection the broker drops its subscriptions, at any moment. The handler of the
      new connection resets the record, but has to wait for a pass to end. */
  datatype Action =
    | SetSubscription(subscribe: bool, gateway: Eui)
    | BeginPass(toSubscribe: seq<Eui>, toUnsubscribe: seq<Eui>)
    | Subscribe(result: Result)
    | Unsubscribe(result: Result)
    | EndPass
    | ConnectionLost
    | OnConnected

  function Diff(a: set<Eui>, b: set<Eui>): set<Eui> { (a - b) + (b - a) }

  /** `list` enumerates `ids`, in the arbitrary order in which Go ranges over a map. */
  ghost predicate Enumerates(list: seq<Eui>, ids: set<Eui>) {
    NoDuplicates(list) && forall id: Eui :: id in list <==> id in ids
  }

  ghost predicate NoDuplicates(list: seq<Eui>) { forall i, j :: 0 <= i < j < |list| ==> list[i] != list[j] }

  ghost predicate AllIn(list: seq<Eui>, ids: set<Eui>) { forall id <- list :: id in ids }

  ghost predicate Enabled(s: State, a: Action) {
    match a
    case SetSubscription(_, _) => true
    case BeginPass(toSubscribe, toUnsubscribe) =>
      s.pass.None? && Enumerates(toSubscribe, s.desired - s.recorded) && Enumerates(toUnsubscribe, s.recorded - s.desired)
    case Subscribe(_) => s.pass.Some? && s.pass.value.subscribe != []
    case Unsubscribe(_) => s.pass.Some? && s.pass.value.subscribe == [] && s.pass.value.unsubscribe != []
    case EndPass => s.pass.Some? && s.pass.value.subscribe == s.pass.value.unsubscribe == []
    case ConnectionLost => true
    case OnConnected => s.pass.None?
  }

  /** The gateway an authentication method provides is not subject to subscription changes. */
  function Desire(desired: set<Eui>, subscribe: bool, gateway: Eui, provided: Option<Eui>): set<Eui> {
    if provided == Some(gateway) then desired
    else if subscribe then desired + {gateway} else desired - {gateway}
  }

  function Apply(s: State, a: Action, provided: Option<Eui>): State
    requires Enabled(s, a)
  {
    match a
    case SetSubscription(subscribe, gateway) => s.(desired := Desire(s.desired, subscribe, gateway, provided))
    case BeginPass(toSubscribe, toUnsubscribe) =>
      s.(pass := Some(Pass(s.desired, s.recorded, toSubscribe, toUnsubscribe, {})))
    case Subscribe(result) =>
      var p := s.pass.value;
      var id, rest := p.subscribe[0], p.(subscribe := p.subscribe[1..]);
      if result.CallFailed? then s.(pass := Some(rest))
      else if result.PublishFailed? then s.(pass := Some(rest), broker := s.broker + {id})
      else s.(pass := Some(rest.(done := p.done + {id})), broker := s.broker + {id}, recorded := s.recorded + {id})
    case Unsubscribe(result) =>
      var p := s.pass.value;
      var id, rest := p.unsubscribe[0], p.(unsubscribe := p.unsubscribe[1..]);
      if result.CallFailed? then s.(pass := Some(rest))
      else if result.PublishFailed? then s.(pass := Some(rest), broker := s.broker - {id})
      else s.(pass := Some(rest.(done := p.done + {id})), broker := s.broker - {id}, recorded := s.recorded - {id})
    case EndPass => s.(pass := None)
    case ConnectionLost => s.(broker := {})
    case OnConnected => s.(recorded := {})
  }

  ghost predicate Allowed(s: State, actions: seq<Action>, provided: Option<Eui>)
    decreases |actions|
  {
    actions == [] || (Enabled(s, actions[0]) && Allowed(Apply(s, actions[0], provided), actions[1..], provided))
  }

  ghost function Run(s: State, actions: seq<Action>, provided: Option<Eui>): State
    requires Allowed(s, actions, provided)
    decreases |actions|
  {
    if actions == [] then s else Run(Apply(s, actions[0], provided), actions[1..], provided)
  }

  // ---------- the recorded set against the snapshot ----------

  /** During a pass the difference between its snapshot and the recorded set is the difference it
      found less the gateways done, and what is left to do is part of it. */
  ghost predicate PassInv(s: State) {
    s.pass.Some? ==>
      var p := s.pass.value;
      && p.done <= Diff(p.snapshot, p.found)
      && Diff(p.snapshot, s.recorded) == Diff(p.snapshot, p.found) - p.done
      && NoDuplicates(p.subscribe) && AllIn(p.subscribe, p.snapshot - s.recorded)
      && NoDuplicates(p.unsubscribe) && AllIn(p.unsubscribe, s.recorded - p.snapshot)
  }

  lemma TailIn(list: seq<Eui>, ids: set<Eui>)
    requires list != [] && NoDuplicates(list) && AllIn(list, ids)
    ensures list[0] in ids && list[0] !in list[1..]
    ensures NoDuplicates(list[1..]) && AllIn(list[1..], ids) && AllIn(list[1..], ids - {list[0]})
  {
    assert list[0] in list;
    assert forall x <- list[1..] :: x in list;
  }

  lemma AllInSubset(list: seq<Eui>, ids: set<Eui>, more: set<Eui>)
    requires AllIn(list, ids) && ids <= more
    ensures AllIn(list, more)
  {
  }

  /** One gateway changing sides removes it from the difference. */
  lemma DiffStep(snapshot: set<Eui>, recorded: set<Eui>, id: Eui)
    requires id in Diff(snapshot, recorded)
    ensures id in snapshot ==> Diff(snapshot, recorded + {id}) == Diff(snapshot, recorded) - {id}
    ensures id !in snapshot ==> Diff(snapshot, recorded - {id}) == Diff(snapshot, recorded) - {id}
  {
  }

  lemma SubscribeKeepsPass(s: State, result: Result, provided: Option<Eui>)
    requires PassInv(s) && Enabled(s, Subscribe(result))
    ensures PassInv(Apply(s, Subscribe(result), provided))
  {
    var p, t := s.pass.value, Apply(s, Subscribe(result), provided);
    TailIn(p.subscribe, p.snapshot - s.recorded);
    DiffStep(p.snapshot, s.recorded, p.subscribe[0]);
    AllInSubset(p.subscribe[1..], p.snapshot - s.recorded - {p.subscribe[0]}, p.snapshot - t.recorded);
    AllInSubset(p.unsubscribe, s.recorded - p.snapshot, t.recorded - p.snapshot);
  }

  lemma UnsubscribeKeepsPass(s: State, result: Result, provided: Option<Eui>)
    requires PassInv(s) && Enabled(s, Unsubscribe(result))
    ensures PassInv(Apply(s, Unsubscribe(result), provided))
  {
    var p, t := s.pass.value, Apply(s, Unsubscribe(result), provided);
    TailIn(p.unsubscribe, s.recorded - p.snapshot);
    DiffStep(p.snapshot, s.recorded, p.unsubscribe[0]);
    AllInSubset(p.unsubscribe[1..], s.recorded - p.snapshot - {p.unsubscribe[0]}, t.recorded - p.snapshot);
  }

  lemma ApplyKeepsPass(s: State, a: Action, provided: Option<Eui>)
    requires PassInv(s) && Enabled(s, a)
    ensures PassInv(Apply(s, a, provided))
  {
    match a
    case Subscribe(result) => SubscribeKeepsPass(s, result, provided);
    case Unsubscribe(result) => UnsubscribeKeepsPass(s, result, provided);
    case _ =>
  }

  lemma {:induction false} RunKeepsPass(s: State, actions: seq<Action>, provided: Option<Eui>)
    requires PassInv(s) && Allowed(s, actions, provided)
    ensures PassInv(Run(s, actions, provided))
    decreases |actions|
  {
    if actions != [] {
      ApplyKeepsPass(s, actions[0], provided);
      RunKeepsPass(Apply(s, actions[0], provided), actions[1..], provided);
    }
  }

  lemma SizeOfDifference(all: set<Eui>, done: set<Eui>)
    requires done <= all
    ensures |all - done| == |all| - |done|
    ensures all - done == {} <==> done == all
  {
    assert all * done == done;
    if done != all {
      var id :| id in all && id !in done;
      assert id in all - done;
    }
  }

  /** In every run, at every moment of a pass, whatever else happens to the desired set: the
      distance to the snapshot shrank by exactly the number of successful operations. */
  lemma PassShrinksDifference(s: State, actions: seq<Action>, provided: Option<Eui>)
    requires s.pass.None? && Allowed(s, actions, provided)
    ensures var t := Run(s, actions, provided);
      t.pass.Some? ==>
        var p := t.pass.value;
        |Diff(p.snapshot, t.recorded)| == |Diff(p.snapshot, p.found)| - |p.done|
  {
    RunKeepsPass(s, actions, provided);
    var t := Run(s, actions, provided);
    if t.pass.Some? {
      var p := t.pass.value;
      SizeOfDifference(Diff(p.snapshot, p.found), p.done);
    }
  }

  lemma FullPass(s: State)
    requires PassInv(s) && s.pass.Some?
    ensures var p := s.pass.value;
      s.recorded == p.snapshot <==> p.done == Diff(p.snapshot, p.found)
  {
    var p := s.pass.value;
    NoDifference(p.snapshot, s.recorded);
    SizeOfDifference(Diff(p.snapshot, p.found), p.done);
  }

  /** A pass in which everything it found was done ends with the recorded set equal to the
      snapshot; otherwise exactly the gateways not done still differ. */
  lemma FullPassAgrees(s: State, actions: seq<Action>, provided: Option<Eui>)
    requires s.pass.None? && Allowed(s, actions, provided) && Run(s, actions, provided).pass.Some?
    ensures var t := Run(s, actions, provided);
      var p := t.pass.value;
      t.recorded == p.snapshot <==> p.done == Diff(p.snapshot, p.found)
  {
    RunKeepsPass(s, actions, provided);
    FullPass(Run(s, actions, provided));
  }

  lemma NoDifference(a: set<Eui>, b: set<Eui>)
    ensures Diff(a, b) == {} <==> a == b
  {
    if a != b {
      var id :| (id in a && id !in b) || (id in b && id !in a);
      assert id in Diff(a, b);
    }
  }

  // ---------- the broker against the recorded set ----------

  /** The action takes a recorded subscription from the broker: the connection is lost while
      something is recorded, or the loop does not count an unsubscribe. */
  predicate LosesSubscription(s: State, a: Action) {
    (a.ConnectionLost? && s.recorded != {}) || a == Unsubscribe(PublishFailed)
  }

  ghost predicate NothingLost(s: State, actions: seq<Action>, provided: Option<Eui>)
    requires Allowed(s, actions, provided)
    decreases |actions|
  {
    actions == [] || (!LosesSubscription(s, actions[0]) && NothingLost(Apply(s, actions[0], provided), actions[1..], provided))
  }

  ghost predicate BrokerHasRecorded(s: State, actions: seq<Action>, provided: Option<Eui>)
    requires Allowed(s, actions, provided)
    decreases |actions|
  {
    s.recorded <= s.broker && (actions == [] || BrokerHasRecorded(Apply(s, actions[0], provided), actions[1..], provided))
  }

  lemma StepLoses(s: State, a: Action, provided: Option<Eui>)
    requires PassInv(s) && s.recorded <= s.broker && Enabled(s, a)
    ensures var t := Apply(s, a, provided);
      t.recorded <= t.broker <==> !LosesSubscription(s, a)
  {
    var t := Apply(s, a, provided);
    if a == Unsubscribe(PublishFailed) {
      var id := s.pass.value.unsubscribe[0];
      assert id in s.pass.value.unsubscribe && id in t.recorded && id !in t.broker;
    }
  }

  /** The broker has every recorded subscription throughout a run exactly when no connection is
      lost while something is recorded and no unsubscribe goes uncounted. */
  lemma {:induction false} BrokerHasRecordedIff(s: State, actions: seq<Action>, provided: Option<Eui>)
    requires PassInv(s) && s.recorded <= s.broker && Allowed(s, actions, provided)
    ensures BrokerHasRecorded(s, actions, provided) <==> NothingLost(s, actions, provided)
    decreases |actions|
  {
    if actions != [] {
      var t := Apply(s, actions[0], provided);
      ApplyKeepsPass(s, actions[0], provided);
      StepLoses(s, actions[0], provided);
      if t.recorded <= t.broker {
        BrokerHasRecordedIff(t, actions[1..], provided);
      } else {
        assert !BrokerHasRecorded(t, actions[1..], provided);
      }
    }
  }

  /** The action leaves the broker with a subscription that is not recorded: the loop does not
      count a subscribe, or the record is reset while the broker has something. */
  predicate ForgetsSubscription(s: State, a: Action) {
    a == Subscribe(PublishFailed) || (a.OnConnected? && s.broker != {})
  }

  ghost predicate NothingForgotten(s: State, actions: seq<Action>, provided: Option<Eui>)
    requires Allowed(s, actions, provided)
    decreases |actions|
  {
    actions == [] || (!ForgetsSubscription(s, actions[0]) && NothingForgotten(Apply(s, actions[0], provided), actions[1..], provided))
  }

  ghost predicate RecordHasBroker(s: State, actions: seq<Action>, provided: Option<Eui>)
    requires Allowed(s, actions, provided)
    decreases |actions|
  {
    s.broker <= s.recorded && (actions == [] || RecordHasBroker(Apply(s, actions[0], provided), actions[1..], provided))
  }

  lemma StepForgets(s: State, a: Action, provided: Option<Eui>)
    requires PassInv(s) && s.broker <= s.recorded && Enabled(s, a)
    ensures var t := Apply(s, a, provided);
      t.broker <= t.recorded <==> !ForgetsSubscription(s, a)
  {
    var t := Apply(s, a, provided);
    if a == Subscribe(PublishFailed) {
      var id := s.pass.value.subscribe[0];
      assert id in s.pass.value.subscribe && id in t.broker && id !in t.recorded;
    }
  }

  /** The other inclusion: the broker has nothing that is not recorded, throughout a run, exactly
      when no subscribe goes uncounted and no record is reset while the broker has something. */
  lemma {:induction false} RecordHasBrokerIff(s: State, actions: seq<Action>, provided: Option<Eui>)
    requires PassInv(s) && s.broker <= s.recorded && Allowed(s, actions, provided)
    ensures RecordHasBroker(s, actions, provided) <==> NothingForgotten(s, actions, provided)
    decreases |actions|
  {
    if actions != [] {
      var t := Apply(s, actions[0], provided);
      ApplyKeepsPass(s, actions[0], provided);
      StepForgets(s, actions[0], provided);
      if t.broker <= t.recorded {
        RecordHasBrokerIff(t, actions[1..], provided);
      } else {
        assert !RecordHasBroker(t, actions[1..], provided);
      }
    }
  }

  /** The gateway is recorded as subscribed, but the broker does not have it. */
  predicate Lost(s: State, id: Eui) { id in s.recorded && id !in s.broker }

  /** What ends that: the new connection's handler, or a counted unsubscribe of the gateway. */
  predicate Recovers(s: State, a: Action, id: Eui) {
    || a.OnConnected?
    || (a == Unsubscribe(Done) && s.pass.Some? && s.pass.value.unsubscribe != [] && s.pass.value.unsubscribe[0] == id)
  }

  ghost predicate StaysLost(s: State, actions: seq<Action>, provided: Option<Eui>, id: Eui)
    requires Allowed(s, actions, provided)
    decreases |actions|
  {
    Lost(s, id) && (actions == [] || StaysLost(Apply(s, actions[0], provided), actions[1..], provided, id))
  }

  ghost predicate NeverRecovers(s: State, actions: seq<Action>, provided: Option<Eui>, id: Eui)
    requires Allowed(s, actions, provided)
    decreases |actions|
  {
    actions == [] || (!Recovers(s, actions[0], id) && NeverRecovers(Apply(s, actions[0], provided), actions[1..], provided, id))
  }

  lemma StepRecovers(s: State, a: Action, provided: Option<Eui>, id: Eui)
    requires PassInv(s) && Lost(s, id) && Enabled(s, a)
    ensures Lost(Apply(s, a, provided), id) <==> !Recovers(s, a, id)
  {
    assert a.Subscribe? ==> s.pass.value.subscribe[0] in s.pass.value.subscribe;
  }

  lemma {:induction false} StaysLostIff(s: State, actions: seq<Action>, provided: Option<Eui>, id: Eui)
    requires PassInv(s) && Lost(s, id) && Allowed(s, actions, provided)
    ensures StaysLost(s, actions, provided, id) <==> NeverRecovers(s, actions, provided, id)
    decreases |actions|
  {
    if actions != [] {
      var t := Apply(s, actions[0], provided);
      ApplyKeepsPass(s, actions[0], provided);
      StepRecovers(s, actions[0], provided, id);
      if Lost(t, id) {
        StaysLostIff(t, actions[1..], provided, id);
      } else {
        assert !StaysLost(t, actions[1..], provided, id);
      }
    }
  }

  /** After an unsubscribe that the loop did not count, the gateway is recorded without the broker
      having it, whether it is desired again or not, for exactly as long as neither a new
      connection resets the record nor a later unsubscribe of it is counted. */
  lemma UncountedUnsubscribeLoses(s: State, actions: seq<Action>, provided: Option<Eui>)
    requires PassInv(s) && Enabled(s, Unsubscribe(PublishFailed))
    requires Allowed(Apply(s, Unsubscribe(PublishFailed), provided), actions, provided)
    ensures var t, id := Apply(s, Unsubscribe(PublishFailed), provided), s.pass.value.unsubscribe[0];
      StaysLost(t, actions, provided, id) <==> NeverRecovers(t, actions, provided, id)
  {
    var id := s.pass.value.unsubscribe[0];
    assert id in s.pass.value.unsubscribe;
    ApplyKeepsPass(s, Unsubscribe(PublishFailed), provided);
    StaysLostIff(Apply(s, Unsubscribe(PublishFailed), provided), actions, provided, id);
  }

  /** No pass that is under way means to unsubscribe the gateway. */
  ghost predicate NotOnList(s: State, id: Eui) { s.pass.Some? ==> id !in s.pass.value.unsubscribe }

  /** A desired gateway that is lost is not subscribed before the handler of a new connection. */
  lemma {:induction false} DesiredStaysLost(s: State, actions: seq<Action>, provided: Option<Eui>, id: Eui)
    requires PassInv(s) && Allowed(s, actions, provided)
    requires Lost(s, id) && id in s.desired && NotOnList(s, id)
    requires OnConnected !in actions && SetSubscription(false, id) !in actions
    ensures StaysLost(s, actions, provided, id)
    decreases |actions|
  {
    if actions != [] {
      assert actions[0] in actions && forall a <- actions[1..] :: a in actions;
      ApplyKeepsPass(s, actions[0], provided);
      StepRecovers(s, actions[0], provided, id);
      DesiredStaysLost(Apply(s, actions[0], provided), actions[1..], provided, id);
    }
  }

  /** An action that does not let a pass begin, nor the record be reset. */
  predicate BeforeNextPass(a: Action) { !a.BeginPass? && !a.OnConnected? }

  lemma {:induction false} NextPassLater(s: State, actions: seq<Action>, provided: Option<Eui>, id: Eui)
    requires PassInv(s) && Allowed(s, actions, provided) && Lost(s, id) && NotOnList(s, id)
    requires forall a <- actions :: BeforeNextPass(a)
    ensures var t := Run(s, actions, provided); PassInv(t) && Lost(t, id) && NotOnList(t, id)
    decreases |actions|
  {
    if actions != [] {
      assert actions[0] in actions && forall a <- actions[1..] :: a in actions;
      ApplyKeepsPass(s, actions[0], provided);
      StepRecovers(s, actions[0], provided, id);
      assert Unsubscribe(Done) == actions[0] ==> s.pass.value.unsubscribe[0] in s.pass.value.unsubscribe;
      NextPassLater(Apply(s, actions[0], provided), actions[1..], provided, id);
    }
  }

  /** So a gateway that returns before the pass after the uncounted unsubscribe begins, and then
      stays desired, has no subscription until the handler of a new connection. */
  lemma LostUntilReconnect(s: State, first: seq<Action>, second: seq<Action>, provided: Option<Eui>)
    requires PassInv(s) && Enabled(s, Unsubscribe(PublishFailed))
    requires var t, id := Apply(s, Unsubscribe(PublishFailed), provided), s.pass.value.unsubscribe[0];
      && provided != Some(id)
      && Allowed(t, first, provided) && (forall a <- first :: BeforeNextPass(a))
      && var u := Apply(Run(t, first, provided), SetSubscription(true, id), provided);
         Allowed(u, second, provided) && OnConnected !in second && SetSubscription(false, id) !in second
    ensures var t, id := Apply(s, Unsubscribe(PublishFailed), provided), s.pass.value.unsubscribe[0];
      var u := Apply(Run(t, first, provided), SetSubscription(true, id), provided);
      id in u.desired && StaysLost(u, second, provided, id)
  {
    var t, id := Apply(s, Unsubscribe(PublishFailed), provided), s.pass.value.unsubscribe[0];
    assert id in s.pass.value.unsubscribe;
    ApplyKeepsPass(s, Unsubscribe(PublishFailed), provided);
    TailIn(s.pass.value.unsubscribe, s.recorded - s.pass.value.snapshot);
    NextPassLater(t, first, provided, id);
    DesiredStaysLost(Apply(Run(t, first, provided), SetSubscription(true, id), provided), second, provided, id);
  }

  // ---------- the code ----------

  lemma {:induction false} RunNext(s: State, actions: seq<Action>, a: Action, provided: Option<Eui>)
    requires Allowed(s, actions, provided) && Enabled(Run(s, actions, provided), a)
    ensures Allowed(s, actions + [a], provided)
    ensures Run(s, actions + [a], provided) == Apply(Run(s, actions, provided), a, provided)
    decreases |actions|
  {
    if actions == [] {
      var t := Apply(s, a, provided);
      assert [a][1..] == [] && [] + [a] == [a];
      assert Allowed(t, [], provided) && Run(t, [], provided) == t;
    } else {
      assert (actions + [a])[1..] == actions[1..] + [a];
      RunNext(Apply(s, actions[0], provided), actions[1..], a, provided);
    }
  }

  /** The gateways of a list whose operations the loop counts as done. */
  function Counted(list: seq<Eui>, results: Eui -> Result): set<Eui> { set id | id in list && results(id).Done? }

  /** The gateways of a list whose operations the broker carries out. */
  function CarriedOut(list: seq<Eui>, results: Eui -> Result): set<Eui> { set id | id in list && !results(id).CallFailed? }

  /** What the operation on one gateway adds to, or takes from, the record and the broker's set. */
  function CountedOne(id: Eui, result: Result): set<Eui> { if result.Done? then {id} else {} }

  function CarriedOutOne(id: Eui, result: Result): set<Eui> { if result.CallFailed? then {} else {id} }

  lemma NextResult(ids: set<Eui>, list: seq<Eui>, i: nat, results: Eui -> Result)
    requires i < |list|
    ensures ids + Counted(list[..i + 1], results) == ids + Counted(list[..i], results) + CountedOne(list[i], results(list[i]))
    ensures ids - Counted(list[..i + 1], results) == ids - Counted(list[..i], results) - CountedOne(list[i], results(list[i]))
    ensures ids + CarriedOut(list[..i + 1], results) == ids + CarriedOut(list[..i], results) + CarriedOutOne(list[i], results(list[i]))
    ensures ids - CarriedOut(list[..i + 1], results) == ids - CarriedOut(list[..i], results) - CarriedOutOne(list[i], results(list[i]))
  {
    assert list[..i + 1] == list[..i] + [list[i]];
  }

  class Backend {
    const provided: Option<Eui>
    var gateways: set<Eui>
    var gatewaysSubscribed: set<Eui>
    /** The broker's side, and how far the loop is. */
    ghost var broker: set<Eui>
    ghost var pass: Option<Pass>

    ghost predicate Valid()
      reads this
    {
      provided.Some? ==> provided.value in gateways
    }

    ghost function View(): State
      reads this
    {
      State(gateways, gatewaysSubscribed, broker, pass)
    }

    constructor (provided: Option<Eui>)
      ensures Valid() && this.provided == provided
      ensures View() == State(if provided.Some? then {provided.value} else {}, {}, {}, None)
    {
      this.provided := provided;
      gateways, gatewaysSubscribed := if provided.Some? then {provided.value} else {}, {};
      broker, pass := {}, None;
    }

    method SetGatewaySubscription(subscribe: bool, gateway: Eui)
      requires Valid()
      modifies this`gateways
      ensures Valid() && gateways == Desire(old(gateways), subscribe, gateway, provided)
      ensures View() == Apply(old(View()), SetSubscription(subscribe, gateway), provided)
    {
      if provided == Some(gateway) {
        return;
      }
      if subscribe {
        gateways := gateways + {gateway};
      } else {
        gateways := gateways - {gateway};
      }
    }

    /** The handler of a new connection; the lock it takes keeps it out of a pass. */
    method OnConnected()
      requires pass.None?
      modifies this`gatewaysSubscribed
      ensures View() == Apply(old(View()), Action.OnConnected, provided)
    {
      gatewaysSubscribed := {};
    }

    /** The differences a pass is to work off. */
    method BeginPass() returns (subscribe: seq<Eui>, unsubscribe: seq<Eui>)
      requires pass.None?
      modifies this`pass
      ensures Enabled(old(View()), Action.BeginPass(subscribe, unsubscribe))
      ensures View() == Apply(old(View()), Action.BeginPass(subscribe, unsubscribe), provided)
    {
      subscribe := Enumerate(gateways - gatewaysSubscribed);
      unsubscribe := Enumerate(gatewaysSubscribed - gateways);
      pass := Some(Pass(gateways, gatewaysSubscribed, subscribe, unsubscribe, {}));
    }

    method SubscribeNext(gateway: Eui, result: Result)
      requires Enabled(View(), Subscribe(result)) && gateway == pass.value.subscribe[0]
      modifies this`gatewaysSubscribed, this`broker, this`pass
      ensures View() == Apply(old(View()), Subscribe(result), provided)
    {
      ghost var after := Apply(View(), Subscribe(result), provided);
      if result.Done? {
        gatewaysSubscribed := gatewaysSubscribed + {gateway};
      }
      broker, pass := after.broker, after.pass;
    }

    method UnsubscribeNext(gateway: Eui, result: Result)
      requires Enabled(View(), Unsubscribe(result)) && gateway == pass.value.unsubscribe[0]
      modifies this`gatewaysSubscribed, this`broker, this`pass
      ensures View() == Apply(old(View()), Unsubscribe(result), provided)
    {
      ghost var after := Apply(View(), Unsubscribe(result), provided);
      if result.Done? {
        gatewaysSubscribed := gatewaysSubscribed - {gateway};
      }
      broker, pass := after.broker, after.pass;
    }

    /** The actions are steps of the loop that lead from `start` to the present state. */
    ghost predicate Reached(start: State, actions: seq<Action>)
      reads this
    {
      Allowed(start, actions, provided) && View() == Run(start, actions, provided)
    }

    /** The next subscription, as one more step of the loop. */
    method SubscribeOne(ghost start: State, ghost before: seq<Action>, gateway: Eui, result: Result)
      returns (ghost actions: seq<Action>)
      requires Reached(start, before) && Enabled(View(), Subscribe(result)) && gateway == pass.value.subscribe[0]
      modifies this`gatewaysSubscribed, this`broker, this`pass
      ensures Reached(start, actions) && pass.Some?
      ensures pass.value.subscribe == old(pass).value.subscribe[1..]
      ensures pass.value.unsubscribe == old(pass).value.unsubscribe
      ensures gatewaysSubscribed == old(gatewaysSubscribed) + CountedOne(gateway, result)
      ensures broker == old(broker) + CarriedOutOne(gateway, result)
    {
      RunNext(start, before, Subscribe(result), provided);
      SubscribeNext(gateway, result);
      actions := before + [Subscribe(result)];
    }

    method SubscribeAll(ghost start: State, ghost before: seq<Action>, list: seq<Eui>, results: Eui -> Result)
      returns (ghost actions: seq<Action>)
      requires Reached(start, before) && pass.Some? && pass.value.subscribe == list
      modifies this`gatewaysSubscribed, this`broker, this`pass
      ensures Reached(start, actions)
      ensures pass.Some? && pass.value.subscribe == [] && pass.value.unsubscribe == old(pass).value.unsubscribe
      ensures gatewaysSubscribed == old(gatewaysSubscribed) + Counted(list, results)
      ensures broker == old(broker) + CarriedOut(list, results)
    {
      actions := before;
      for i := 0 to |list|
        invariant Reached(start, actions)
        invariant pass.Some? && pass.value.subscribe == list[i..] && pass.value.unsubscribe == old(pass).value.unsubscribe
        invariant gatewaysSubscribed == old(gatewaysSubscribed) + Counted(list[..i], results)
        invariant broker == old(broker) + CarriedOut(list[..i], results)
      {
        NextResult(old(gatewaysSubscribed), list, i, results);
        NextResult(old(broker), list, i, results);
        actions := SubscribeOne(start, actions, list[i], results(list[i]));
      }
      assert list[..|list|] == list;
    }

    /** The next unsubscription, as one more step of the loop. */
    method UnsubscribeOne(ghost start: State, ghost before: seq<Action>, gateway: Eui, result: Result)
      returns (ghost actions: seq<Action>)
      requires Reached(start, before) && Enabled(View(), Unsubscribe(result)) && gateway == pass.value.unsubscribe[0]
      modifies this`gatewaysSubscribed, this`broker, this`pass
      ensures Reached(start, actions) && pass.Some?
      ensures pass.value.subscribe == old(pass).value.subscribe
      ensures pass.value.unsubscribe == old(pass).value.unsubscribe[1..]
      ensures gatewaysSubscribed == old(gatewaysSubscribed) - CountedOne(gateway, result)
      ensures broker == old(broker) - CarriedOutOne(gateway, result)
    {
      RunNext(start, before, Unsubscribe(result), provided);
      UnsubscribeNext(gateway, result);
      actions := before + [Unsubscribe(result)];
    }

    method UnsubscribeAll(ghost start: State, ghost before: seq<Action>, list: seq<Eui>, results: Eui -> Result)
      returns (ghost actions: seq<Action>)
      requires Reached(start, before) && pass.Some? && pass.value.subscribe == [] && pass.value.unsubscribe == list
      modifies this`gatewaysSubscribed, this`broker, this`pass
      ensures Reached(start, actions) && Enabled(View(), EndPass)
      ensures gatewaysSubscribed == old(gatewaysSubscribed) - Counted(list, results)
      ensures broker == old(broker) - CarriedOut(list, results)
    {
      actions := before;
      for i := 0 to |list|
        invariant Reached(start, actions)
        invariant pass.Some? && pass.value.subscribe == [] && pass.value.unsubscribe == list[i..]
        invariant gatewaysSubscribed == old(gatewaysSubscribed) - Counted(list[..i], results)
        invariant broker == old(broker) - CarriedOut(list[..i], results)
      {
        NextResult(old(gatewaysSubscribed), list, i, results);
        NextResult(old(broker), list, i, results);
        actions := UnsubscribeOne(start, actions, list[i], results(list[i]));
      }
      assert list[..|list|] == list;
    }

    /** A whole pass as steps of the loop, `results` telling how each operation ends; nothing else
        happens meanwhile. Exactly the gateways whose operations were not done still differ, and
        the broker has what it had and was subscribed to, less what was unsubscribed. */
    method SubscribePass(results: Eui -> Result) returns (ghost actions: seq<Action>)
      requires pass.None?
      modifies this`gatewaysSubscribed, this`broker, this`pass
      ensures pass.None? && Allowed(old(View()), actions, provided)
      ensures View() == Run(old(View()), actions, provided)
      ensures Diff(gateways, gatewaysSubscribed) ==
        set id | id in Diff(gateways, old(gatewaysSubscribed)) && !results(id).Done?
      ensures broker == (old(broker) + set id | id in gateways - old(gatewaysSubscribed) && !results(id).CallFailed?)
                        - set id | id in old(gatewaysSubscribed) - gateways && !results(id).CallFailed?
      ensures (forall id: Eui :: results(id).Done?) && old(broker) == old(gatewaysSubscribed) ==>
        broker == gateways == gatewaysSubscribed
    {
      ghost var start := View();
      var subscribe, unsubscribe := BeginPass();
      RunNext(start, [], Action.BeginPass(subscribe, unsubscribe), provided);
      actions := SubscribeAll(start, [] + [Action.BeginPass(subscribe, unsubscribe)], subscribe, results);
      actions := UnsubscribeAll(start, actions, unsubscribe, results);
      RunNext(start, actions, EndPass, provided);
      actions := actions + [EndPass];
      pass := None;
      NoDifference(gateways, gatewaysSubscribed);
    }
  }

  method Enumerate(ids: set<Eui>) returns (list: seq<Eui>)
    ensures Enumerates(list, ids)
  {
    list := [];
    var todo := ids;
    while todo != {}
      invariant todo <= ids && Enumerates(list, ids - todo)
      decreases todo
    {
      var id :| id in todo;
      todo := todo - {id};
      list := list + [id];
    }
  }
}
