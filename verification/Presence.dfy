/** Presence across forwarder and router. A router client forwards what its gateways send and
    suppresses online reports for four minutes after anything it sent; the router forgets a
    gateway it has not heard of for five minutes. This module is the timed composition of both
    over a sequence of sessions. Within a session the stream delivers in order within `delay`;
    each connected gateway reports online at least every `gap`. */
module Presence {
  import opened Words
  import opened Frames
  import opened RouterClient
  import Router

  datatype Timing = Timing(gap: int, delay: int)

  /** A message on its way to the router. */
  datatype Wire = Wire(sentAt: int, gateway: Eui, online: bool)

  /** How a connected gateway came into the session: at time `at`, by its own first event or
      because it was connected when the session began; `memory` is the time of the last event
      the client then remembered. */
  datatype Joined = Joined(at: int, carried: bool, memory: Option<int>)

  /** `due` is when a connected gateway will have reported online at the latest; `announced` are
      those the client has told the router about in this session, and `heard` the sending time of
      the last message about a gateway the router got in this session. */
  datatype State = State(
    now: int,
    client: Client,
    due: map<Eui, int>,
    joined: map<Eui, Joined>,
    announced: set<Eui>,
    wire: seq<Wire>,
    router: map<Eui, Router.Managed>,
    heard: map<Eui, int>)

  /** `Reconnect` is the end of one session together with the start of the next at time `at`;
      `connected` are the gateways still connected then, the others left without being noticed. */
  datatype Action =
    | Advance(to: int)
    | Gateway(input: Input)
    | Deliver
    | Sweep
    | Others(router: map<Eui, Router.Managed>)
    | Reconnect(at: int, connected: set<Eui>)

  /** The forwarder of this client; a new session's identifier serves as well as the old one's. */
  const SELF: Router.ForwarderId := 0

  function AboutGateway(m: Message): Option<(Eui, bool)> {
    match m
    case UplinkEvent(g) => Some((g, true))
    case StatusEvent(g, online) => Some((g, online))
    case TxAckEvent(_) => None
  }

  /** What the environment is assumed to do: time respects the delay of every message on the
      wire and the next report of every connected gateway; other forwarders only ever refresh
      or remove entries, with the current time. */
  predicate Enabled(s: State, a: Action, timing: Timing) {
    match a
    case Advance(to) =>
      && s.now <= to
      && (forall g <- s.due :: to <= s.due[g])
      && (forall m <- s.wire :: to <= m.sentAt + timing.delay)
    case Gateway(_) => true
    case Deliver => s.wire != []
    case Sweep => true
    case Others(router) => forall g <- router ::
      (g in s.router && router[g] == s.router[g]) || (router[g].forwarder != SELF && router[g].lastSeen == s.now)
    case Reconnect(at, connected) => s.now <= at && connected <= s.due.Keys
  }

  /** The gateway an event shows to be connected; an uplink the client does not forward says
      nothing about presence. */
  function Shows(input: Input): Option<Eui> {
    match input
    case Online(g) => Some(g)
    case Uplink(g, true) => Some(g)
    case _ => None
  }

  function Due(s: State, input: Input, timing: Timing): map<Eui, int> {
    match input
    case Online(g) => s.due[g := s.now + timing.gap]
    case Uplink(g, true) => if g !in s.due then s.due[g := s.now + timing.gap] else s.due
    case Offline(g) => s.due - {g}
    case _ => s.due
  }

  function JoinedAfter(s: State, input: Input): map<Eui, Joined> {
    match Shows(input)
    case Some(g) => if g in s.due then s.joined else s.joined[g := Joined(s.now, false, MemoryOf(s.client.last, g))]
    case None => if input.Offline? then s.joined - {input.gateway} else s.joined
  }

  /** The gateways announced after the client sent a message about one, or none. */
  function Announce(announced: set<Eui>, about: Option<(Eui, bool)>): set<Eui> {
    match about
    case None => announced
    case Some((g, online)) => if online then announced + {g} else announced - {g}
  }

  function Apply(s: State, a: Action, timing: Timing): State
    requires Enabled(s, a, timing)
  {
    match a
    case Advance(to) => s.(now := to)
    case Gateway(input) =>
      var (client, outcome) := Step(s.client, input, s.now, true);
      var about := if outcome.Sent? then AboutGateway(outcome.message) else None;
      s.(client := client, due := Due(s, input, timing), joined := JoinedAfter(s, input),
         announced := Announce(s.announced, about),
         wire := if about.Some? then s.wire + [Wire(s.now, about.value.0, about.value.1)] else s.wire)
    case Deliver =>
      var m := s.wire[0];
      if m.online
      then s.(wire := s.wire[1..], heard := s.heard[m.gateway := m.sentAt],
              router := Router.WentOnline(s.router, SELF, m.gateway, s.now))
      else s.(wire := s.wire[1..], heard := s.heard - {m.gateway},
              router := Router.WentOffline(s.router, m.gateway))
    case Sweep => s.(router := Router.Swept(s.router, s.now))
    case Others(router) => s.(router := router)
    case Reconnect(at, connected) =>
      State(at, NewSession(s.client), map g | g in connected :: at + timing.gap,
            map g | g in connected :: Joined(at, true, MemoryOf(s.client.last, g)), {}, [],
            s.router - Router.ManagedBy(s.router, SELF), map[])
  }

  predicate Allowed(s: State, actions: seq<Action>, timing: Timing)
    decreases |actions|
  {
    actions == [] ||
    (Enabled(s, actions[0], timing) && Allowed(Apply(s, actions[0], timing), actions[1..], timing))
  }

  function Run(s: State, actions: seq<Action>, timing: Timing): State
    requires Allowed(s, actions, timing)
    decreases |actions|
  {
    if actions == [] then s else Run(Apply(s, actions[0], timing), actions[1..], timing)
  }

  /** The start of the forwarder; the router may know gateways from others. */
  predicate Starts(s: State) {
    && s.client.last == map[] && s.due == map[] && s.joined == map[] && s.announced == {}
    && s.wire == [] && s.heard == map[]
  }

  // ---------- the invariant ----------

  /** Following the messages about `g` on the wire, after one sent at `from` (if any): each is
      sent within `bound` of its predecessor, and what follows the last one is the client's own
      memory of it. */
  ghost predicate Chain(announced: set<Eui>, last: map<Eui, int>, wire: seq<Wire>, g: Eui, from: Option<int>, bound: int)
    decreases |wire|
  {
    if wire == [] then from.Some? ==> g in announced && g in last && last[g] == from.value
    else if wire[0].gateway != g then Chain(announced, last, wire[1..], g, from, bound)
    else
      && (from.Some? ==> wire[0].sentAt <= from.value + bound)
      && Chain(announced, last, wire[1..], g, if wire[0].online then Some(wire[0].sentAt) else None, bound)
  }

  function HeardOf(heard: map<Eui, int>, g: Eui): Option<int> { if g in heard then Some(heard[g]) else None }

  /** The longest silence of the client about a gateway it announced. */
  function Silence(timing: Timing): int { SUPPRESS_ONLINE + timing.gap }

  /** When the client tells the router about a gateway that joined so, at the latest. A memory
      no older than four minutes suppresses the first report and all others until it is older. */
  function Deadline(j: Joined, timing: Timing): int {
    if j.memory.Some? && j.at - j.memory.value <= SUPPRESS_ONLINE then j.memory.value + Silence(timing)
    else if j.carried then j.at + timing.gap
    else j.at
  }

  /** Following the wire, the router will have got an online message about `g`, sent by `deadline`,
      unless it is still to be sent. */
  ghost predicate Arrives(heard: bool, wire: seq<Wire>, g: Eui, deadline: int, announced: bool)
    decreases |wire|
  {
    if wire == [] then heard || !announced
    else if wire[0].gateway != g then Arrives(heard, wire[1..], g, deadline, announced)
    else if wire[0].online then (heard || wire[0].sentAt <= deadline) && Arrives(true, wire[1..], g, deadline, announced)
    else Arrives(false, wire[1..], g, deadline, announced)
  }

  ghost predicate ClientInv(s: State, timing: Timing) {
    && s.joined.Keys == s.due.Keys && s.announced <= s.due.Keys && s.due.Keys <= s.client.last.Keys
    && (forall g <- s.client.last :: s.client.last[g] <= s.now)
    && (forall g <- s.due :: DueInv(s.now, s.due[g], s.joined[g], s.client.last[g], g in s.announced, timing))
  }

  /** One connected gateway: its next report is due within the client's silence, or by its
      deadline when it is not announced yet. */
  predicate DueInv(now: int, due: int, joined: Joined, last: int, announced: bool, timing: Timing) {
    && joined.at <= now <= due <= now + timing.gap
    && if announced then due <= last + Silence(timing)
       else joined.memory == Some(last) && due <= Deadline(joined, timing)
  }

  ghost predicate StreamInv(s: State, timing: Timing) {
    && (forall m <- s.wire :: m.sentAt <= s.now <= m.sentAt + timing.delay)
    && (forall g: Eui :: Chain(s.announced, s.client.last, s.wire, g, HeardOf(s.heard, g), Silence(timing)))
    && (forall g <- s.joined :: Arrives(g in s.heard, s.wire, g, Deadline(s.joined[g], timing), g in s.announced))
  }

  ghost predicate RouterInv(s: State) {
    forall g <- s.heard :: s.heard[g] <= s.now && (g in s.router ==> s.heard[g] <= s.router[g].lastSeen)
  }

  ghost predicate Inv(s: State, timing: Timing) {
    timing.gap >= 0 && timing.delay >= 0 && ClientInv(s, timing) && StreamInv(s, timing) && RouterInv(s)
  }

  lemma {:induction false} ChainFrame(announced: set<Eui>, last: map<Eui, int>, announced': set<Eui>, last': map<Eui, int>,
                                      wire: seq<Wire>, g: Eui, from: Option<int>, bound: int)
    requires g in announced ==> g in announced'
    requires g in last ==> g in last' && last'[g] == last[g]
    requires Chain(announced, last, wire, g, from, bound)
    ensures Chain(announced', last', wire, g, from, bound)
    decreases |wire|
  {
    if wire != [] {
      var from' := if wire[0].gateway != g then from
        else if wire[0].online then Some(wire[0].sentAt) else None;
      ChainFrame(announced, last, announced', last', wire[1..], g, from', bound);
    }
  }

  /** Appending a message about `g`, sent within the bound of the client's last one. */
  lemma {:induction false} ChainAppend(announced: set<Eui>, last: map<Eui, int>, announced': set<Eui>, last': map<Eui, int>,
                                       wire: seq<Wire>, m: Wire, g: Eui, from: Option<int>, bound: int)
    requires g in announced && g in last ==> m.sentAt <= last[g] + bound
    requires m.gateway == g
    requires m.online ==> g in announced' && g in last' && last'[g] == m.sentAt
    requires Chain(announced, last, wire, g, from, bound)
    ensures Chain(announced', last', wire + [m], g, from, bound)
    decreases |wire|
  {
    if wire == [] {
      assert (wire + [m])[1..] == [];
    } else {
      assert (wire + [m])[1..] == wire[1..] + [m];
      var from' := if wire[0].gateway != g then from
        else if wire[0].online then Some(wire[0].sentAt) else None;
      ChainAppend(announced, last, announced', last', wire[1..], m, g, from', bound);
    }
  }

  lemma {:induction false} ChainAppendOther(announced: set<Eui>, last: map<Eui, int>, wire: seq<Wire>, m: Wire,
                                            g: Eui, from: Option<int>, bound: int)
    requires m.gateway != g && Chain(announced, last, wire, g, from, bound)
    ensures Chain(announced, last, wire + [m], g, from, bound)
    decreases |wire|
  {
    if wire == [] {
      assert (wire + [m])[1..] == [];
    } else {
      assert (wire + [m])[1..] == wire[1..] + [m];
      var from' := if wire[0].gateway != g then from
        else if wire[0].online then Some(wire[0].sentAt) else None;
      ChainAppendOther(announced, last, wire[1..], m, g, from', bound);
    }
  }

  lemma {:induction false} ArrivesAppend(heard: bool, wire: seq<Wire>, m: Wire, g: Eui, deadline: int)
    requires m.gateway == g && m.online && m.sentAt <= deadline
    requires forall x <- wire :: x.sentAt <= deadline
    ensures Arrives(heard, wire + [m], g, deadline, true)
    decreases |wire|
  {
    if wire == [] {
      assert (wire + [m])[1..] == [];
    } else {
      assert (wire + [m])[1..] == wire[1..] + [m];
      assert wire[0] in wire && forall x <- wire[1..] :: x in wire;
      var heard' := if wire[0].gateway == g then wire[0].online else heard;
      ArrivesAppend(heard', wire[1..], m, g, deadline);
    }
  }

  /** A message about a gateway already announced, or about another one, changes nothing. */
  lemma {:induction false} ArrivesFrame(heard: bool, wire: seq<Wire>, m: Wire, g: Eui, deadline: int, announced: bool)
    requires m.gateway != g || (m.online && announced)
    requires Arrives(heard, wire, g, deadline, announced)
    ensures Arrives(heard, wire + [m], g, deadline, announced)
    decreases |wire|
  {
    if wire == [] {
      assert (wire + [m])[1..] == [];
    } else {
      assert (wire + [m])[1..] == wire[1..] + [m];
      var heard' := if wire[0].gateway == g then wire[0].online else heard;
      ArrivesFrame(heard', wire[1..], m, g, deadline, announced);
    }
  }

  /** A gateway that is new in the session, its reports being suppressed, or not suppressed. */
  lemma {:induction false} ArrivesUnannounced(heard: bool, wire: seq<Wire>, g: Eui, deadline: int)
    requires forall x <- wire :: x.sentAt <= deadline
    ensures Arrives(heard, wire, g, deadline, false)
    decreases |wire|
  {
    if wire != [] {
      assert wire[0] in wire && forall x <- wire[1..] :: x in wire;
      ArrivesUnannounced(if wire[0].gateway == g then wire[0].online else heard, wire[1..], g, deadline);
    }
  }

  lemma GatewayKeepsKeys(s: State, input: Input, timing: Timing)
    requires ClientInv(s, timing)
    ensures var t := Apply(s, Gateway(input), timing);
      && t.joined.Keys == t.due.Keys && t.announced <= t.due.Keys && t.due.Keys <= t.client.last.Keys
      && forall g <- t.client.last :: t.client.last[g] <= t.now
  {
  }

  lemma GatewayKeepsDue(s: State, input: Input, timing: Timing, g: Eui)
    requires timing.gap >= 0 && ClientInv(s, timing)
    requires var t := Apply(s, Gateway(input), timing); g in t.due && g in t.joined && g in t.client.last
    ensures var t := Apply(s, Gateway(input), timing);
      DueInv(t.now, t.due[g], t.joined[g], t.client.last[g], g in t.announced, timing)
  {
    if g in s.due {
      assert DueInv(s.now, s.due[g], s.joined[g], s.client.last[g], g in s.announced, timing);
    }
  }

  lemma GatewayKeepsClient(s: State, input: Input, timing: Timing)
    requires timing.gap >= 0 && ClientInv(s, timing)
    ensures ClientInv(Apply(s, Gateway(input), timing), timing)
  {
    var t := Apply(s, Gateway(input), timing);
    GatewayKeepsKeys(s, input, timing);
    forall g | g in t.due
      ensures DueInv(t.now, t.due[g], t.joined[g], t.client.last[g], g in t.announced, timing)
    {
      GatewayKeepsDue(s, input, timing, g);
    }
  }

  lemma GatewayKeepsChain(s: State, input: Input, timing: Timing, g: Eui)
    requires Inv(s, timing)
    ensures var t := Apply(s, Gateway(input), timing);
      Chain(t.announced, t.client.last, t.wire, g, HeardOf(t.heard, g), Silence(timing))
  {
    var t := Apply(s, Gateway(input), timing);
    var from, bound := HeardOf(s.heard, g), Silence(timing);
    if t.wire == s.wire {
      ChainFrame(s.announced, s.client.last, t.announced, t.client.last, s.wire, g, from, bound);
    } else {
      var m := t.wire[|s.wire|];
      assert t.wire == s.wire + [m];
      if m.gateway == g {
        ChainAppend(s.announced, s.client.last, t.announced, t.client.last, s.wire, m, g, from, bound);
      } else {
        ChainAppendOther(s.announced, s.client.last, s.wire, m, g, from, bound);
        ChainFrame(s.announced, s.client.last, t.announced, t.client.last, t.wire, g, from, bound);
      }
    }
  }

  lemma GatewayKeepsArrives(s: State, input: Input, timing: Timing, g: Eui)
    requires Inv(s, timing) && g in Apply(s, Gateway(input), timing).joined
    ensures var t := Apply(s, Gateway(input), timing);
      Arrives(g in t.heard, t.wire, g, Deadline(t.joined[g], timing), g in t.announced)
  {
    var t := Apply(s, Gateway(input), timing);
    var deadline := Deadline(t.joined[g], timing);
    if t.wire == s.wire {
      if g !in s.due {
        ArrivesUnannounced(g in s.heard, s.wire, g, deadline);
      }
    } else {
      var m := t.wire[|s.wire|];
      assert t.wire == s.wire + [m];
      if g in s.due && (m.gateway != g || g in s.announced) {
        ArrivesFrame(g in s.heard, s.wire, m, g, deadline, g in s.announced);
      } else {
        ArrivesAppend(g in s.heard, s.wire, m, g, deadline);
      }
    }
  }

  lemma DeliverKeeps(s: State, timing: Timing)
    requires Inv(s, timing) && s.wire != []
    ensures Inv(Apply(s, Deliver, timing), timing)
  {
    var t := Apply(s, Deliver, timing);
    assert s.wire[0] in s.wire;
    forall g: Eui
      ensures Chain(t.announced, t.client.last, t.wire, g, HeardOf(t.heard, g), Silence(timing))
    {
      assert Chain(s.announced, s.client.last, s.wire, g, HeardOf(s.heard, g), Silence(timing));
    }
    forall g | g in t.joined
      ensures Arrives(g in t.heard, t.wire, g, Deadline(t.joined[g], timing), g in t.announced)
    {
      assert Arrives(g in s.heard, s.wire, g, Deadline(s.joined[g], timing), g in s.announced);
    }
  }

  lemma ApplyKeeps(s: State, a: Action, timing: Timing)
    requires Inv(s, timing) && Enabled(s, a, timing)
    ensures Inv(Apply(s, a, timing), timing)
  {
    match a
    case Gateway(input) =>
      GatewayKeepsClient(s, input, timing);
      forall g: Eui { GatewayKeepsChain(s, input, timing, g); }
      forall g | g in Apply(s, a, timing).joined { GatewayKeepsArrives(s, input, timing, g); }
    case Deliver => DeliverKeeps(s, timing);
    case _ =>
  }

  /** How long after its last message the router hears of a gateway again. */
  lemma {:induction false} NextHeard(announced: set<Eui>, last: map<Eui, int>, wire: seq<Wire>, g: Eui, from: int, bound: int)
    requires Chain(announced, last, wire, g, Some(from), bound)
    ensures (g in announced && g in last && last[g] == from)
      || exists m <- wire :: m.gateway == g && m.sentAt <= from + bound
    decreases |wire|
  {
    if wire != [] && wire[0].gateway != g {
      NextHeard(announced, last, wire[1..], g, from, bound);
    } else if wire != [] {
      assert wire[0] in wire;
    }
  }

  /** A gateway heard of is never five minutes unseen when gap and delay leave room for it. */
  lemma HeardIsFresh(s: State, timing: Timing, g: Eui)
    requires Inv(s, timing) && g in s.heard && g in s.router
    ensures s.now - s.router[g].lastSeen <= Silence(timing) + timing.delay
  {
    assert Chain(s.announced, s.client.last, s.wire, g, HeardOf(s.heard, g), Silence(timing));
    NextHeard(s.announced, s.client.last, s.wire, g, s.heard[g], Silence(timing));
  }

  /** A gateway not heard of has its announcement on the wire, or is not announced yet. */
  lemma {:induction false} NotArrived(wire: seq<Wire>, g: Eui, deadline: int, announced: bool)
    requires Arrives(false, wire, g, deadline, announced)
    ensures !announced || exists m <- wire :: m.sentAt <= deadline
    decreases |wire|
  {
    if wire != [] {
      assert wire[0] in wire;
      if wire[0].gateway != g || !wire[0].online {
        NotArrived(wire[1..], g, deadline, announced);
      }
    }
  }

  lemma UnheardIsEarly(s: State, timing: Timing, g: Eui)
    requires Inv(s, timing) && g in s.due && g !in s.heard
    ensures s.now <= Deadline(s.joined[g], timing) + timing.delay
  {
    NotArrived(s.wire, g, Deadline(s.joined[g], timing), g in s.announced);
  }

  lemma {:induction false} RunKeeps(s: State, actions: seq<Action>, timing: Timing)
    requires Inv(s, timing) && Allowed(s, actions, timing)
    ensures Inv(Run(s, actions, timing), timing)
    decreases |actions|
  {
    if actions != [] {
      ApplyKeeps(s, actions[0], timing);
      RunKeeps(Apply(s, actions[0], timing), actions[1..], timing);
    }
  }

  lemma StartInv(s: State, timing: Timing)
    requires Starts(s) && timing.gap >= 0 && timing.delay >= 0
    ensures Inv(s, timing)
  {
  }

  /** Presence: if four minutes, the gap and the delay together do not exceed five minutes, then
      in every run a sweep never removes a gateway registered through the current session. */
  lemma SweepKeepsHeardGateways(s: State, actions: seq<Action>, timing: Timing, g: Eui)
    requires Starts(s) && Allowed(s, actions, timing) && timing.gap >= 0 && timing.delay >= 0
    requires Silence(timing) + timing.delay <= Router.TIMEOUT
    ensures var t := Run(s, actions, timing);
      g in t.heard && g in t.router ==> g in Apply(t, Sweep, timing).router
  {
    StartInv(s, timing);
    RunKeeps(s, actions, timing);
    var t := Run(s, actions, timing);
    if g in t.heard && g in t.router {
      HeardIsFresh(t, timing, g);
    }
  }

  /** No other forwarder reports anything. */
  predicate Alone(actions: seq<Action>) { forall a <- actions :: !a.Others? }

  ghost predicate HeardRegistered(s: State) { forall g <- s.heard :: g in s.router }

  lemma {:induction false} HeardStaysRegistered(s: State, actions: seq<Action>, timing: Timing)
    requires Inv(s, timing) && HeardRegistered(s) && Allowed(s, actions, timing) && Alone(actions)
    requires Silence(timing) + timing.delay <= Router.TIMEOUT
    ensures HeardRegistered(Run(s, actions, timing))
    decreases |actions|
  {
    if actions != [] {
      var a := actions[0];
      assert a in actions && forall b <- actions[1..] :: b in actions;
      ApplyKeeps(s, a, timing);
      forall g | a.Sweep? && g in s.heard { HeardIsFresh(s, timing, g); }
      HeardStaysRegistered(Apply(s, a, timing), actions[1..], timing);
    }
  }

  /** Within the same bound, and as long as no other forwarder interferes, a connected gateway is
      registered whenever its deadline and the delay are over: in the first session and after
      every reconnect. */
  lemma ConnectedIsRegistered(s: State, actions: seq<Action>, timing: Timing, g: Eui)
    requires Starts(s) && Allowed(s, actions, timing) && Alone(actions) && timing.gap >= 0 && timing.delay >= 0
    requires Silence(timing) + timing.delay <= Router.TIMEOUT
    ensures var t := Run(s, actions, timing);
      g in t.due && g in t.joined && t.now > Deadline(t.joined[g], timing) + timing.delay ==> g in t.router
  {
    StartInv(s, timing);
    RunKeeps(s, actions, timing);
    HeardStaysRegistered(s, actions, timing);
    var t := Run(s, actions, timing);
    if g in t.due && g !in t.heard {
      UnheardIsEarly(t, timing, g);
    }
  }

  // ---------- the bounds are exact ----------

  lemma {:induction false} RunAppend(s: State, first: seq<Action>, second: seq<Action>, timing: Timing)
    requires Allowed(s, first, timing) && Allowed(Run(s, first, timing), second, timing)
    ensures Allowed(s, first + second, timing)
    ensures Run(s, first + second, timing) == Run(Run(s, first, timing), second, timing)
    decreases |first|
  {
    if first == [] {
      assert first + second == second;
    } else {
      assert (first + second)[1..] == first[1..] + second;
      RunAppend(Apply(s, first[0], timing), first[1..], second, timing);
    }
  }

  lemma RunTwo(s: State, a: Action, b: Action, timing: Timing)
    requires Enabled(s, a, timing) && Enabled(Apply(s, a, timing), b, timing)
    ensures Allowed(s, [a, b], timing)
    ensures Run(s, [a, b], timing) == Apply(Apply(s, a, timing), b, timing)
  {
    var t := Apply(s, a, timing);
    var u := Apply(t, b, timing);
    assert [a, b][1..] == [b] && [b][1..] == [];
    assert Allowed(u, [], timing) && Run(u, [], timing) == u;
    assert Allowed(t, [b], timing) && Run(t, [b], timing) == u;
  }

  /** The state after gateway 0 reported online at time `at`, as soon as it is allowed to be. */
  function ReportAt(s: State, at: int, timing: Timing): State
    requires Enabled(s, Advance(at), timing)
  {
    Apply(Apply(s, Advance(at), timing), Gateway(Online(0)), timing)
  }

  lemma ReportRuns(s: State, at: int, timing: Timing) returns (actions: seq<Action>)
    requires Enabled(s, Advance(at), timing)
    ensures Allowed(s, actions, timing) && Alone(actions) && Run(s, actions, timing) == ReportAt(s, at, timing)
  {
    actions := [Advance(at), Gateway(Online(0))];
    RunTwo(s, actions[0], actions[1], timing);
  }

  /** Gateway 0 is the only one connected and reports online again and again. */
  predicate OnlyZero(s: State) { s.due.Keys == {0} && s.now <= s.due[0] && 0 in s.client.last }

  /** What such a report does: nothing but to set the next one's time, when it is suppressed, and
      otherwise one message more on the wire. */
  lemma ReportOfZero(s: State, at: int, timing: Timing)
    requires timing.gap > 0 && OnlyZero(s) && Enabled(s, Advance(at), timing)
    ensures var t := ReportAt(s, at, timing);
      && OnlyZero(t) && t.now == at && t.due[0] == at + timing.gap
      && t.router == s.router && t.heard == s.heard && t.joined == s.joined
      && if at - s.client.last[0] <= SUPPRESS_ONLINE then t == s.(now := at, due := map[0 := at + timing.gap])
         else t.wire == s.wire + [Wire(at, 0, true)]
  {
    var t := ReportAt(s, at, timing);
    assert t.due == map[0 := at + timing.gap];
  }

  /** Time passes without anything being delivered; as long as the client's memory is no older
      than four minutes all reports are suppressed. */
  lemma {:induction false} Wait(s: State, end: int, timing: Timing) returns (actions: seq<Action>)
    requires timing.gap > 0 && timing.delay >= 0 && s.now <= end && OnlyZero(s)
    requires forall m <- s.wire :: end <= m.sentAt + timing.delay
    requires end - s.client.last[0] <= SUPPRESS_ONLINE || exists m <- s.wire :: m.sentAt <= s.now
    ensures Allowed(s, actions, timing) && Alone(actions)
    ensures var t := Run(s, actions, timing);
      && OnlyZero(t) && t.now == end && t.due[0] == end + timing.gap
      && t.router == s.router && t.heard == s.heard && t.joined == s.joined
      && (end - s.client.last[0] <= SUPPRESS_ONLINE ==> t == s.(now := end, due := map[0 := end + timing.gap]))
    decreases end - s.due[0]
  {
    var next := if end <= s.due[0] then end else s.due[0];
    actions := ReportRuns(s, next, timing);
    ReportOfZero(s, next, timing);
    if next < end {
      var u := ReportAt(s, next, timing);
      StillOnWire(s, u, end, next, timing);
      var rest := Wait(u, end, timing);
      RunAppend(s, actions, rest, timing);
      actions := actions + rest;
    }
  }

  lemma StillOnWire(s: State, u: State, end: int, next: int, timing: Timing)
    requires timing.delay >= 0 && s.now <= next == u.now && 0 in s.client.last && 0 in u.client.last
    requires forall m <- s.wire :: end <= m.sentAt + timing.delay
    requires end - s.client.last[0] <= SUPPRESS_ONLINE || exists m <- s.wire :: m.sentAt <= s.now
    requires next <= end
    requires if next - s.client.last[0] <= SUPPRESS_ONLINE then u.wire == s.wire && u.client == s.client
             else u.wire == s.wire + [Wire(next, 0, true)]
    ensures forall m <- u.wire :: end <= m.sentAt + timing.delay
    ensures end - u.client.last[0] <= SUPPRESS_ONLINE || exists m <- u.wire :: m.sentAt <= u.now
  {
    assert forall m <- s.wire :: m in u.wire;
    if m :| m in s.wire && m.sentAt <= s.now {
      assert m in u.wire;
    }
  }

  /** A sweep can remove a gateway that this session registered and that is still connected. */
  ghost predicate SweepCanRemove(timing: Timing) {
    exists s: State, actions: seq<Action> ::
      && Starts(s) && Allowed(s, actions, timing)
      && SweepRemoves(Run(s, actions, timing), timing)
  }

  ghost predicate SweepRemoves(t: State, timing: Timing) {
    exists g: Eui :: g in t.due && g in t.heard && g in t.router && g !in Apply(t, Sweep, timing).router
  }

  function Fresh(now: int): State { State(now, Client(map[], map[]), map[], map[], {}, [], map[], map[]) }

  /** The state after gateway 0 reported online for the first time, at time 0. */
  function Registered(timing: Timing): State {
    State(0, Client(map[0 := 0], map[]), map[0 := timing.gap], map[0 := Joined(0, false, None)], {0}, [],
          map[0 := Router.Managed(SELF, 0)], map[0 := 0])
  }

  lemma RegisteredIsReached(timing: Timing) returns (actions: seq<Action>)
    requires timing.gap > 0
    ensures Allowed(Fresh(0), actions, timing) && Run(Fresh(0), actions, timing) == Registered(timing)
  {
    actions := [Gateway(Online(0)), Deliver];
    var t := Apply(Fresh(0), actions[0], timing);
    assert t.wire == [Wire(0, 0, true)];
    assert Apply(t, Deliver, timing) == Registered(timing);
    RunTwo(Fresh(0), actions[0], actions[1], timing);
  }

  lemma JustAdvance(s: State, end: int, timing: Timing) returns (actions: seq<Action>)
    requires Enabled(s, Advance(end), timing)
    ensures Allowed(s, actions, timing) && Alone(actions) && Run(s, actions, timing) == s.(now := end)
  {
    actions := [Advance(end)];
    assert actions[1..] == [];
  }

  /** Gateway 0 is due at a time when its report will not be suppressed: nothing is heard of it
      before that time and the delay are over. */
  lemma Linger(s: State, end: int, timing: Timing) returns (actions: seq<Action>)
    requires timing.gap > 0 && timing.delay >= 0 && OnlyZero(s) && s.wire == []
    requires s.due[0] - s.client.last[0] > SUPPRESS_ONLINE
    requires s.now <= end <= s.due[0] + timing.delay
    ensures Allowed(s, actions, timing) && Alone(actions)
    ensures var t := Run(s, actions, timing);
      t.now == end && 0 in t.due && t.router == s.router && t.heard == s.heard && t.joined == s.joined
  {
    var due := s.due[0];
    if end <= due {
      actions := JustAdvance(s, end, timing);
    } else {
      var report := ReportRuns(s, due, timing);
      var t := ReportAt(s, due, timing);
      assert t.wire == [Wire(due, 0, true)];
      assert Wire(due, 0, true) in t.wire;
      var wait := Wait(t, end, timing);
      RunAppend(s, report, wait, timing);
      actions := report + wait;
    }
  }

  /** The same while the memory of gateway 0 suppresses its reports at first. */
  lemma LingerSuppressed(s: State, end: int, timing: Timing) returns (actions: seq<Action>)
    requires timing.gap > 0 && timing.delay >= 0 && OnlyZero(s) && s.wire == []
    requires s.now - s.client.last[0] <= SUPPRESS_ONLINE
    requires s.now <= end <= s.client.last[0] + Silence(timing) + timing.delay
    ensures Allowed(s, actions, timing) && Alone(actions)
    ensures var t := Run(s, actions, timing);
      t.now == end && 0 in t.due && t.router == s.router && t.heard == s.heard && t.joined == s.joined
  {
    var awake := s.client.last[0] + SUPPRESS_ONLINE;
    actions := Wait(s, if end <= awake then end else awake, timing);
    if end > awake {
      var t := Run(s, actions, timing);
      var linger := Linger(t, end, timing);
      RunAppend(s, actions, linger, timing);
      actions := actions + linger;
    }
  }

  lemma SilenceCanExceed(timing: Timing) returns (actions: seq<Action>)
    requires timing.gap > 0 && timing.delay >= 0
    requires Silence(timing) + timing.delay > Router.TIMEOUT
    ensures Allowed(Registered(timing), actions, timing)
    ensures SweepRemoves(Run(Registered(timing), actions, timing), timing)
  {
    actions := LingerSuppressed(Registered(timing), Router.TIMEOUT + 1, timing);
    var end := Run(Registered(timing), actions, timing);
    assert 0 in end.due && 0 in end.heard && 0 in end.router && 0 !in Apply(end, Sweep, timing).router;
  }

  /** The exact condition: some run loses a connected gateway to a sweep, although its session
      registered it, if and only if four minutes, the gap and the delay together exceed the
      router's five minutes. */
  lemma PresenceIsExact(timing: Timing)
    requires timing.gap > 0 && timing.delay >= 0
    ensures SweepCanRemove(timing) <==> 240_000_000_000 + timing.gap + timing.delay > 300_000_000_000
  {
    if Silence(timing) + timing.delay > Router.TIMEOUT {
      var first := RegisteredIsReached(timing);
      var second := SilenceCanExceed(timing);
      RunAppend(Fresh(0), first, second, timing);
      assert SweepRemoves(Run(Fresh(0), first + second, timing), timing);
    } else {
      forall s: State, actions: seq<Action>
        | Starts(s) && Allowed(s, actions, timing)
        ensures !SweepRemoves(Run(s, actions, timing), timing)
      {
        forall g: Eui
          ensures var t := Run(s, actions, timing);
            g in t.heard && g in t.router ==> g in Apply(t, Sweep, timing).router
        {
          SweepKeepsHeardGateways(s, actions, timing, g);
        }
      }
    }
  }

  // ---------- registration, also after a reconnect ----------

  /** Gateways remembered from another time are remembered from before they joined, and those
      connected when a session begins are remembered. */
  predicate CanJoin(j: Joined) {
    (j.memory.Some? ==> j.memory.value <= j.at) && (j.carried ==> j.memory.Some?)
  }

  /** A connected gateway that joined so is unknown to the router at time `now`. */
  ghost predicate Unregistered(t: State, j: Joined, now: int) {
    t.now == now && exists g: Eui :: g in t.due && g in t.joined && t.joined[g] == j && g !in t.heard && g !in t.router
  }

  ghost predicate CanBeUnregistered(timing: Timing, j: Joined, now: int) {
    exists s: State, actions: seq<Action> ::
      Starts(s) && Allowed(s, actions, timing) && Unregistered(Run(s, actions, timing), j, now)
  }

  /** A new session that begins at time `at`, `r` being when the client last told of gateway 0. */
  function Remembering(r: int, at: int, connected: set<Eui>, timing: Timing): State {
    State(at, Client(map[0 := r], map[]), map g | g in connected :: at + timing.gap,
          map g | g in connected :: Joined(at, true, Some(r)), {}, [], map[], map[])
  }

  lemma RememberingIsReached(r: int, at: int, connected: set<Eui>, timing: Timing) returns (actions: seq<Action>)
    requires timing.gap > 0 && timing.delay >= 0 && r <= at && connected <= {0}
    ensures Allowed(Fresh(r), actions, timing) && Run(Fresh(r), actions, timing) == Remembering(r, at, connected, timing)
  {
    actions := [Gateway(Online(0)), Reconnect(at, connected)];
    var t := Apply(Fresh(r), actions[0], timing);
    assert t.client == Client(map[0 := r], map[]) && t.router == map[];
    assert Router.ManagedBy(t.router, SELF) == {};
    assert Apply(t, actions[1], timing) == Remembering(r, at, connected, timing);
    RunTwo(Fresh(r), actions[0], actions[1], timing);
  }

  /** A run to the moment at which gateway 0 has joined the session as `j` says. */
  lemma JoinIsReached(j: Joined, timing: Timing) returns (s: State, actions: seq<Action>)
    requires timing.gap > 0 && timing.delay >= 0 && CanJoin(j)
    ensures Starts(s) && Allowed(s, actions, timing)
    ensures var t := Run(s, actions, timing);
      && OnlyZero(t) && t.now == j.at && t.due[0] == j.at + timing.gap
      && t.joined == map[0 := j] && t.heard == map[] && t.router == map[]
      && if j.carried || (j.memory.Some? && j.at - j.memory.value <= SUPPRESS_ONLINE)
         then t.wire == [] && j.memory == Some(t.client.last[0]) else t.wire == [Wire(j.at, 0, true)]
  {
    if j.memory.None? {
      s := Fresh(j.at);
      actions := ReportRuns(s, j.at, timing);
    } else {
      var connected := if j.carried then {0} else {};
      s := Fresh(j.memory.value);
      actions := RememberingIsReached(j.memory.value, j.at, connected, timing);
      var t := Run(s, actions, timing);
      if !j.carried {
        var report := ReportRuns(t, j.at, timing);
        RunAppend(s, actions, report, timing);
        actions := actions + report;
      }
    }
  }

  lemma UnregisteredUntil(timing: Timing, j: Joined, now: int)
    requires timing.gap > 0 && timing.delay >= 0 && CanJoin(j)
    requires j.at <= now <= Deadline(j, timing) + timing.delay
    ensures CanBeUnregistered(timing, j, now)
  {
    var s, join := JoinIsReached(j, timing);
    var t := Run(s, join, timing);
    var rest: seq<Action>;
    if j.memory.Some? && j.at - j.memory.value <= SUPPRESS_ONLINE {
      rest := LingerSuppressed(t, now, timing);
    } else if j.carried {
      rest := Linger(t, now, timing);
    } else {
      assert Wire(j.at, 0, true) in t.wire;
      rest := Wait(t, now, timing);
    }
    RunAppend(s, join, rest, timing);
    var u := Run(s, join + rest, timing);
    assert 0 in u.due && 0 in u.joined && u.joined[0] == j && 0 !in u.heard && 0 !in u.router;
    assert Unregistered(u, j, now);
  }

  /** Whatever a gateway's past with this client, it can be connected and yet unknown to the
      router exactly until its deadline and the delay are over: when it joins with a memory of at
      most four minutes, that is four minutes and a gap after the remembered event. */
  lemma RegistrationIsExact(timing: Timing, j: Joined, now: int)
    requires timing.gap > 0 && timing.delay >= 0 && CanJoin(j) && j.at <= now
    ensures CanBeUnregistered(timing, j, now) <==>
      now <= timing.delay + (
        if j.memory.Some? && j.at - j.memory.value <= 240_000_000_000 then j.memory.value + 240_000_000_000 + timing.gap
        else if j.carried then j.at + timing.gap
        else j.at)
  {
    if now <= Deadline(j, timing) + timing.delay {
      UnregisteredUntil(timing, j, now);
    } else {
      forall s: State, actions: seq<Action>
        | Starts(s) && Allowed(s, actions, timing)
        ensures !Unregistered(Run(s, actions, timing), j, now)
      {
        StartInv(s, timing);
        RunKeeps(s, actions, timing);
        var t := Run(s, actions, timing);
        forall g | g in t.due && t.joined[g] == j && g !in t.heard { UnheardIsEarly(t, timing, g); }
      }
    }
  }

  /** An action that does not make the client speak of `g` while its reports are suppressed. */
  predicate QuietAbout(a: Action, g: Eui) {
    && !a.Others? && !a.Reconnect?
    && (a.Gateway? ==> a.input != Offline(g) && a.input != Uplink(g, true))
  }

  /** And it must be: in every run after a reconnect, a remembered gateway of which the client
      forwards no uplink stays unknown to the router for four minutes after the remembered event. */
  lemma ReconnectIsSilent(s: State, at: int, connected: set<Eui>, actions: seq<Action>, timing: Timing, g: Eui)
    requires Enabled(s, Reconnect(at, connected), timing) && g in s.client.last
    requires g in s.router ==> s.router[g].forwarder == SELF
    requires Allowed(Apply(s, Reconnect(at, connected), timing), actions, timing)
    requires forall a <- actions :: QuietAbout(a, g)
    ensures var t := Run(Apply(s, Reconnect(at, connected), timing), actions, timing);
      t.now - s.client.last[g] <= SUPPRESS_ONLINE ==> g !in t.router
  {
    StaysSilent(Apply(s, Reconnect(at, connected), timing), actions, timing, g, s.client.last[g]);
  }

  /** The client remembers `g` from time `last`, and nothing it said reaches the router any more. */
  ghost predicate Silent(s: State, g: Eui, last: int) {
    g in s.client.last && s.client.last[g] == last && g !in s.router && forall m <- s.wire :: m.gateway != g
  }

  lemma StepSilent(s: State, a: Action, timing: Timing, g: Eui, last: int)
    requires Enabled(s, a, timing) && QuietAbout(a, g) && Silent(s, g, last) && s.now - last <= SUPPRESS_ONLINE
    ensures Silent(Apply(s, a, timing), g, last)
  {
    if a.Deliver? {
      assert s.wire[0] in s.wire;
    }
  }

  lemma {:induction false} StaysSilent(s: State, actions: seq<Action>, timing: Timing, g: Eui, last: int)
    requires Allowed(s, actions, timing) && forall a <- actions :: QuietAbout(a, g)
    requires Silent(s, g, last)
    ensures Run(s, actions, timing).now - last <= SUPPRESS_ONLINE ==> g !in Run(s, actions, timing).router
    decreases |actions|
  {
    if actions != [] {
      assert actions[0] in actions && forall a <- actions[1..] :: a in actions;
      NowGrows(s, actions, timing);
      if s.now - last <= SUPPRESS_ONLINE {
        StepSilent(s, actions[0], timing, g, last);
        StaysSilent(Apply(s, actions[0], timing), actions[1..], timing, g, last);
      }
    }
  }

  lemma {:induction false} NowGrows(s: State, actions: seq<Action>, timing: Timing)
    requires Allowed(s, actions, timing)
    ensures s.now <= Run(s, actions, timing).now
    decreases |actions|
  {
    if actions != [] {
      NowGrows(Apply(s, actions[0], timing), actions[1..], timing);
    }
  }
}
