/** The forwarder's client of one router: it keeps the time of the last event it sent per
    gateway, to suppress superfluous online reports, and the downlinks whose acknowledgement
    the router is waiting for. Times are in nanoseconds. */
module RouterClient {
  import opened Words
  import opened Frames

  const SUPPRESS_ONLINE := 4 * MINUTE
  const ACK_DEADLINE := 30 * SECOND
  const ACK_TICK := 30 * SECOND

  type RouterId = int

  /** SHA-256 of the router's id and the downlink id, taken to be free of collisions. */
  datatype Key = Sha256(router: RouterId, downlinkId: uint32)

  datatype Client = Client(last: map<Eui, int>, pending: map<Key, int>)

  /** What a client handles: events of gateways, downlinks of its router, its own ticker.
      `accepted` tells whether the router wants and pays for the uplink or join. */
  datatype Input =
    | Uplink(gateway: Eui, accepted: bool)
    | Online(gateway: Eui)
    | Offline(gateway: Eui)
    | TxAck(key: Key)
    | Downlink(key: Key)
    | Tick

  datatype Message =
    | UplinkEvent(gateway: Eui)
    | StatusEvent(gateway: Eui, online: bool)
    | TxAckEvent(key: Key)

  /** A message to the router can fail, which ends the session. */
  datatype Outcome = Idle | Sent(message: Message) | Broken

  predicate Suppressed(last: map<Eui, int>, gateway: Eui, now: int) {
    gateway in last && now - last[gateway] <= SUPPRESS_ONLINE
  }

  function Unexpired(pending: map<Key, int>, now: int): map<Key, int> {
    map k | k in pending && !(pending[k] < now - ACK_DEADLINE) :: pending[k]
  }

  /** A new session starts without pending downlinks, but with the event times of the last. */
  function NewSession(c: Client): Client { c.(pending := map[]) }

  /** One turn of the event loop at time `now`; `sends` tells whether a send would succeed. */
  function Step(c: Client, input: Input, now: int, sends: bool): (Client, Outcome) {
    match input
    case Uplink(gateway, accepted) =>
      if !accepted then (c, Idle)
      else if !sends then (c, Broken)
      else (c.(last := c.last[gateway := now]), Sent(UplinkEvent(gateway)))
    case Online(gateway) =>
      if Suppressed(c.last, gateway, now) then (c, Idle)
      else if !sends then (c, Broken)
      else (c.(last := c.last[gateway := now]), Sent(StatusEvent(gateway, true)))
    case Offline(gateway) =>
      if !sends then (c, Broken)
      else (c.(last := c.last - {gateway}), Sent(StatusEvent(gateway, false)))
    case TxAck(key) =>
      if key !in c.pending then (c, Idle)
      else
        var d := c.(pending := c.pending - {key});
        if !sends then (d, Broken) else (d, Sent(TxAckEvent(key)))
    case Downlink(key) => (c.(pending := c.pending[key := now]), Idle)
    case Tick => (c.(pending := Unexpired(c.pending, now)), Idle)
  }

  // ---------- downlink acknowledgement accounting, over one session ----------

  datatype Entry = Entry(time: int, input: Input, outcome: Outcome)

  datatype Session = Session(client: Client, log: seq<Entry>)

  function Extend(s: Session, time: int, input: Input, sends: bool): Session {
    var (next, outcome) := Step(s.client, input, time, sends);
    Session(next, s.log + [Entry(time, input, outcome)])
  }

  datatype Event = Event(time: int, input: Input, sends: bool)

  /** A session that starts with no pending downlinks. */
  function Run(start: Client, events: seq<Event>): (s: Session)
    ensures |s.log| == |events|
  {
    if events == [] then Session(NewSession(start), [])
    else
      var e := events[|events| - 1];
      Extend(Run(start, events[..|events| - 1]), e.time, e.input, e.sends)
  }

  predicate IsForward(e: Entry, key: Key) { e.input == TxAck(key) && e.outcome == Sent(TxAckEvent(key)) }

  predicate IsDownlink(e: Entry, key: Key) { e.input == Downlink(key) }

  /** How often the router asked for the downlink. */
  function Asked(log: seq<Entry>, key: Key): nat {
    if log == [] then 0
    else Asked(log[..|log| - 1], key) + if IsDownlink(log[|log| - 1], key) then 1 else 0
  }

  /** How often its acknowledgement was forwarded. */
  function Forwarded(log: seq<Entry>, key: Key): nat {
    if log == [] then 0
    else Forwarded(log[..|log| - 1], key) + if IsForward(log[|log| - 1], key) then 1 else 0
  }

  /** The acknowledgement at `n` consumes the downlink at `d`: the router asked for it at `d`,
      and nothing was asked or forwarded for the key in between. */
  ghost predicate Consumes(log: seq<Entry>, d: nat, n: nat, key: Key)
    requires n <= |log|
  {
    && d < n && IsDownlink(log[d], key)
    && forall j :: d < j < n ==> !IsDownlink(log[j], key) && !IsForward(log[j], key)
  }

  /** Each pending entry stands for a downlink of this session that is still unanswered. */
  ghost predicate PendingAccounted(s: Session, key: Key) {
    && (key in s.client.pending ==>
      exists d: nat :: Consumes(s.log, d, |s.log|, key) && s.log[d].time == s.client.pending[key])
    && Forwarded(s.log, key) + (if key in s.client.pending then 1 else 0) <= Asked(s.log, key)
  }

  lemma ExtendAccounted(s: Session, e: Event, key: Key)
    requires PendingAccounted(s, key)
    ensures PendingAccounted(Extend(s, e.time, e.input, e.sends), key)
  {
    var next := Extend(s, e.time, e.input, e.sends);
    assert next.log[..|s.log|] == s.log;
    if key in next.client.pending {
      if e.input == Downlink(key) {
        assert Consumes(next.log, |s.log|, |next.log|, key);
      } else {
        var d: nat :| Consumes(s.log, d, |s.log|, key) && s.log[d].time == s.client.pending[key];
        assert Consumes(next.log, d, |next.log|, key);
      }
    }
  }

  lemma {:induction false} SessionAccounted(start: Client, events: seq<Event>, key: Key)
    ensures PendingAccounted(Run(start, events), key)
  {
    if events != [] {
      SessionAccounted(start, events[..|events| - 1], key);
      ExtendAccounted(Run(start, events[..|events| - 1]), events[|events| - 1], key);
    }
  }

  /** Acknowledgements forwarded never outnumber the downlinks the router asked for. */
  lemma ForwardsNeverOutnumber(start: Client, events: seq<Event>, key: Key)
    ensures Forwarded(Run(start, events).log, key) <= Asked(Run(start, events).log, key)
  {
    SessionAccounted(start, events, key);
  }

  lemma {:induction false} RunLog(start: Client, events: seq<Event>, n: nat)
    requires n < |events|
    ensures Run(start, events).log[..n] == Run(start, events[..n]).log
    ensures Run(start, events).log[n] == Extend(Run(start, events[..n]), events[n].time, events[n].input, events[n].sends).log[n]
    decreases |events|
  {
    var before := events[..|events| - 1];
    if n < |before| {
      RunLog(start, before, n);
      assert before[..n] == events[..n];
    } else if n > 0 {
      RunLog(start, before, n - 1);
    }
  }

  /** Every forwarded acknowledgement consumes a downlink of its own of the same session. */
  lemma ForwardConsumesDownlink(start: Client, events: seq<Event>, n: nat, key: Key)
    requires n < |events|
    requires IsForward(Run(start, events).log[n], key)
    ensures exists d: nat :: Consumes(Run(start, events).log, d, n, key)
  {
    var log := Run(start, events).log;
    RunLog(start, events, n);
    SessionAccounted(start, events[..n], key);
    var s := Run(start, events[..n]);
    var d: nat :| Consumes(s.log, d, |s.log|, key);
    assert forall j :: 0 <= j < n ==> log[j] == s.log[j];
    assert Consumes(log, d, n, key);
  }

  /** Two forwarded acknowledgements never consume the same downlink. */
  lemma ConsumedOnce(log: seq<Entry>, d: nat, n: nat, m: nat, key: Key)
    requires n < m < |log| && IsForward(log[n], key) && Consumes(log, d, n, key)
    ensures !Consumes(log, d, m, key)
  {
    assert d < n < m;
  }

  /** The downlink at `d` is still waiting for its acknowledgement before entry `n`: nothing was
      asked or acknowledged for its key since, and no tick came when it was older than 30 seconds. */
  ghost predicate Awaited(log: seq<Entry>, d: nat, n: nat, key: Key)
    requires n <= |log|
  {
    && d < n && IsDownlink(log[d], key)
    && forall j :: d < j < n ==>
      && !IsDownlink(log[j], key) && log[j].input != TxAck(key)
      && (log[j].input == Tick ==> log[j].time - log[d].time <= 30_000_000_000)
  }

  /** What is pending is exactly what is awaited, since when it was asked for. */
  ghost predicate PendingIsAwaited(s: Session, key: Key) {
    && (key in s.client.pending ==> exists d: nat :: Awaited(s.log, d, |s.log|, key))
    && forall d: nat :: Awaited(s.log, d, |s.log|, key) ==>
      key in s.client.pending && s.client.pending[key] == s.log[d].time
  }

  lemma ExtendAwaited(s: Session, e: Event, key: Key)
    requires PendingIsAwaited(s, key)
    ensures PendingIsAwaited(Extend(s, e.time, e.input, e.sends), key)
  {
    var next, n := Extend(s, e.time, e.input, e.sends), |s.log|;
    assert next.log[..n] == s.log;
    forall d: nat | Awaited(next.log, d, n + 1, key)
      ensures key in next.client.pending && next.client.pending[key] == next.log[d].time
    {
      if d < n {
        assert Awaited(s.log, d, n, key);
        assert next.log[n].input == e.input;
      }
    }
    if key in next.client.pending {
      if e.input == Downlink(key) {
        assert Awaited(next.log, n, n + 1, key);
      } else {
        var d: nat :| Awaited(s.log, d, n, key);
        assert Awaited(next.log, d, n + 1, key);
      }
    }
  }

  lemma {:induction false} SessionAwaits(start: Client, events: seq<Event>, key: Key)
    ensures PendingIsAwaited(Run(start, events), key)
  {
    if events != [] {
      SessionAwaits(start, events[..|events| - 1], key);
      ExtendAwaited(Run(start, events[..|events| - 1]), events[|events| - 1], key);
    }
  }

  /** An acknowledgement is forwarded if and only if it is awaited and can be sent. */
  lemma ForwardedIffAwaited(start: Client, events: seq<Event>, n: nat, key: Key)
    requires n < |events| && events[n].input == TxAck(key)
    ensures IsForward(Run(start, events).log[n], key) <==>
      events[n].sends && exists d: nat :: Awaited(Run(start, events).log, d, n, key)
  {
    var log, s := Run(start, events).log, Run(start, events[..n]);
    RunLog(start, events, n);
    SessionAwaits(start, events[..n], key);
    assert forall j :: 0 <= j < n ==> log[j] == s.log[j];
    assert forall d: nat :: Awaited(log, d, n, key) <==> Awaited(s.log, d, n, key);
  }

  /** The last downlink for the key before entry `n`, from one at `d` on. */
  lemma {:induction false} LastDownlink(log: seq<Entry>, d: nat, n: nat, key: Key) returns (last: nat)
    requires d < n <= |log| && IsDownlink(log[d], key)
    ensures d <= last < n && IsDownlink(log[last], key) && forall j :: last < j < n ==> !IsDownlink(log[j], key)
    decreases n - d
  {
    if j: nat :| d < j < n && IsDownlink(log[j], key) {
      last := LastDownlink(log, j, n, key);
    } else {
      last := d;
    }
  }

  /** So an acknowledgement that comes within 30 seconds of its downlink, in the same session, is
      forwarded, whatever ticks come in between. */
  lemma AnswerInTimeIsForwarded(start: Client, events: seq<Event>, d: nat, n: nat, key: Key)
    requires d < n < |events| && forall i, j :: 0 <= i < j < |events| ==> events[i].time <= events[j].time
    requires events[d].input == Downlink(key) && events[n].input == TxAck(key) && events[n].sends
    requires forall j :: d < j < n ==> events[j].input != TxAck(key)
    requires events[n].time - events[d].time <= 30_000_000_000
    ensures IsForward(Run(start, events).log[n], key)
  {
    var log := Run(start, events).log;
    forall j | 0 <= j < |events| ensures log[j].input == events[j].input && log[j].time == events[j].time {
      RunLog(start, events, j);
    }
    var last := LastDownlink(log, d, n, key);
    assert Awaited(log, last, n, key);
    ForwardedIffAwaited(start, events, n, key);
  }

  // ---------- what the client remembers, over all its sessions ----------

  function MemoryOf(last: map<Eui, int>, g: Eui): Option<int> { if g in last then Some(last[g]) else None }

  /** What an outcome at time `now` makes of the time last told. */
  function ToldBy(outcome: Outcome, g: Eui, now: int, before: Option<int>): Option<int> {
    if outcome == Sent(UplinkEvent(g)) || outcome == Sent(StatusEvent(g, true)) then Some(now)
    else if outcome == Sent(StatusEvent(g, false)) then None
    else before
  }

  /** The time of the last uplink, join or online report of `g` that was forwarded, unless an
      offline report was forwarded since; `before` is what was known before the log. */
  function LastTold(log: seq<Entry>, g: Eui, before: Option<int>): Option<int> {
    if log == [] then before
    else
      var e := log[|log| - 1];
      ToldBy(e.outcome, g, e.time, LastTold(log[..|log| - 1], g, before))
  }

  /** Sessions one after the other, with the log of all of them. */
  function Life(sessions: seq<seq<Event>>): Session {
    if sessions == [] then Session(Client(map[], map[]), [])
    else
      var before := Life(sessions[..|sessions| - 1]);
      var last := Run(before.client, sessions[|sessions| - 1]);
      Session(last.client, before.log + last.log)
  }

  lemma {:induction false} SessionRemembers(start: Client, events: seq<Event>, g: Eui)
    ensures MemoryOf(Run(start, events).client.last, g) == LastTold(Run(start, events).log, g, MemoryOf(start.last, g))
  {
    if events != [] {
      var before, e := Run(start, events[..|events| - 1]), events[|events| - 1];
      SessionRemembers(start, events[..|events| - 1], g);
      ToldNext(before.log, Entry(e.time, e.input, Step(before.client, e.input, e.time, e.sends).1), g, MemoryOf(start.last, g));
      StepRemembers(before.client, e.input, e.time, e.sends, g);
    }
  }

  lemma ToldNext(log: seq<Entry>, e: Entry, g: Eui, before: Option<int>)
    ensures LastTold(log + [e], g, before) == ToldBy(e.outcome, g, e.time, LastTold(log, g, before))
  {
    assert (log + [e])[..|log|] == log;
  }

  lemma StepRemembers(c: Client, input: Input, now: int, sends: bool, g: Eui)
    ensures var (next, outcome) := Step(c, input, now, sends);
      MemoryOf(next.last, g) == ToldBy(outcome, g, now, MemoryOf(c.last, g))
  {
  }

  lemma {:induction false} LastToldAppend(first: seq<Entry>, second: seq<Entry>, g: Eui, before: Option<int>)
    ensures LastTold(first + second, g, before) == LastTold(second, g, LastTold(first, g, before))
  {
    if second == [] {
      assert first + second == first;
    } else {
      assert (first + second)[..|first + second| - 1] == first + second[..|second| - 1];
      LastToldAppend(first, second[..|second| - 1], g, before);
    }
  }

  /** Over all sessions the client remembers a gateway exactly when it has told the router of it
      since it last reported it offline, and remembers that time. */
  lemma {:induction false} ClientRemembers(sessions: seq<seq<Event>>, g: Eui)
    ensures MemoryOf(Life(sessions).client.last, g) == LastTold(Life(sessions).log, g, None)
  {
    if sessions != [] {
      var before, events := Life(sessions[..|sessions| - 1]), sessions[|sessions| - 1];
      ClientRemembers(sessions[..|sessions| - 1], g);
      SessionRemembers(before.client, events, g);
      LastToldAppend(before.log, Run(before.client, events).log, g, None);
    }
  }

  /** So an online report is suppressed if and only if the client told the router of the gateway at
      most four minutes ago, and not of its going offline since. Every other online report, every
      offline report and every uplink the router wants is sent, unless sending fails. */
  lemma SuppressedIffToldRecently(sessions: seq<seq<Event>>, g: Eui, now: int, sends: bool)
    ensures var life := Life(sessions);
      var told := LastTold(life.log, g, None);
      && Step(life.client, Online(g), now, sends).1 ==
        (if told.Some? && now - told.value <= 240_000_000_000 then Idle
         else if sends then Sent(StatusEvent(g, true)) else Broken)
      && Step(life.client, Offline(g), now, sends).1 == (if sends then Sent(StatusEvent(g, false)) else Broken)
      && Step(life.client, Uplink(g, true), now, sends).1 == (if sends then Sent(UplinkEvent(g)) else Broken)
      && Step(life.client, Uplink(g, false), now, sends) == (life.client, Idle)
  {
    ClientRemembers(sessions, g);
  }

  // ---------- expiry ----------

  /** Times do not go back, and the ticker fires at least every `ACK_TICK`: `tick` is the time of
      the last tick, initially of the session's start. */
  ghost predicate Ticking(events: seq<Event>, start: int) {
    forall n :: 0 <= n < |events| ==>
      PreviousTime(events, n, start) <= events[n].time <= LastTick(events[..n], start) + ACK_TICK
  }

  function PreviousTime(events: seq<Event>, n: nat, start: int): int
    requires n <= |events|
  {
    if n == 0 then start else events[n - 1].time
  }

  function LastTick(events: seq<Event>, start: int): int {
    if events == [] then start
    else if events[|events| - 1].input == Tick then events[|events| - 1].time
    else LastTick(events[..|events| - 1], start)
  }

  /** A step leaves the age of pending downlinks alone, adds a fresh one, or is a tick. */
  lemma StepPending(c: Client, input: Input, now: int, sends: bool, key: Key)
    ensures var next := Step(c, input, now, sends).0;
      key in next.pending ==>
        || (key in c.pending && next.pending[key] == c.pending[key] && (input == Tick ==> c.pending[key] >= now - ACK_DEADLINE))
        || (input == Downlink(key) && next.pending[key] == now)
  {
  }

  lemma TickingInit(events: seq<Event>, start: int)
    requires events != [] && Ticking(events, start)
    ensures var before, e := events[..|events| - 1], events[|events| - 1];
      && Ticking(before, start)
      && PreviousTime(before, |before|, start) <= e.time <= LastTick(before, start) + ACK_TICK
  {
    var before, e := events[..|events| - 1], events[|events| - 1];
    forall n | 0 <= n < |before|
      ensures PreviousTime(before, n, start) <= before[n].time <= LastTick(before[..n], start) + ACK_TICK
    {
      assert before[..n] == events[..n] && before[n] == events[n];
      assert PreviousTime(before, n, start) == PreviousTime(events, n, start);
    }
  }

  /** With a tick every thirty seconds no pending downlink is ever older than a minute. */
  lemma {:induction false} PendingIsYoung(start: Client, events: seq<Event>, began: int, key: Key)
    requires Ticking(events, began)
    ensures LastTick(events, began) <= PreviousTime(events, |events|, began) <= LastTick(events, began) + ACK_TICK
    ensures var pending := Run(start, events).client.pending;
      key in pending ==>
        && LastTick(events, began) - ACK_DEADLINE <= pending[key]
        && PreviousTime(events, |events|, began) - pending[key] <= ACK_TICK + ACK_DEADLINE
  {
    if events != [] {
      var before, e := events[..|events| - 1], events[|events| - 1];
      TickingInit(events, began);
      PendingIsYoung(start, before, began, key);
      StepPending(Run(start, before).client, e.input, e.time, e.sends, key);
    }
  }

  // ---------- the code ----------

  class RouterClient {
    const router: RouterId
    var lastGatewayEvent: map<Eui, int>
    var pendingDownlinkAcks: map<Key, int>

    ghost function View(): Client
      reads this
    {
      Client(lastGatewayEvent, pendingDownlinkAcks)
    }

    constructor (router: RouterId)
      ensures View() == Client(map[], map[]) && this.router == router
    {
      this.router, lastGatewayEvent, pendingDownlinkAcks := router, map[], map[];
    }

    /** The start of an event loop; the event times survive from the previous session. */
    method Connect()
      modifies this
      ensures View() == NewSession(old(View()))
    {
      pendingDownlinkAcks := map[];
    }

    /** Uplinks and joins. */
    method HandleUplink(gateway: Eui, accepted: bool, now: int, sends: bool) returns (outcome: Outcome)
      modifies this
      ensures View() == Step(old(View()), Uplink(gateway, accepted), now, sends).0
      ensures outcome == Step(old(View()), Uplink(gateway, accepted), now, sends).1
    {
      if !accepted {
        return Idle;
      }
      if !sends {
        return Broken;
      }
      lastGatewayEvent := lastGatewayEvent[gateway := now];
      return Sent(UplinkEvent(gateway));
    }

    method HandleStatus(gateway: Eui, online: bool, now: int, sends: bool) returns (outcome: Outcome)
      modifies this
      ensures View() == Step(old(View()), if online then Online(gateway) else Offline(gateway), now, sends).0
      ensures outcome == Step(old(View()), if online then Online(gateway) else Offline(gateway), now, sends).1
    {
      if online {
        if gateway !in lastGatewayEvent || now - lastGatewayEvent[gateway] > SUPPRESS_ONLINE {
          if !sends {
            return Broken;
          }
          lastGatewayEvent := lastGatewayEvent[gateway := now];
          return Sent(StatusEvent(gateway, true));
        }
        return Idle;
      }
      if !sends {
        return Broken;
      }
      lastGatewayEvent := lastGatewayEvent - {gateway};
      return Sent(StatusEvent(gateway, false));
    }

    method HandleTxAck(downlinkId: uint32, now: int, sends: bool) returns (outcome: Outcome)
      modifies this
      ensures View() == Step(old(View()), TxAck(Sha256(router, downlinkId)), now, sends).0
      ensures outcome == Step(old(View()), TxAck(Sha256(router, downlinkId)), now, sends).1
    {
      var key := Sha256(router, downlinkId);
      if key !in pendingDownlinkAcks {
        return Idle;
      }
      pendingDownlinkAcks := pendingDownlinkAcks - {key};
      return if sends then Sent(TxAckEvent(key)) else Broken;
    }

    method HandleDownlink(downlinkId: uint32, now: int)
      modifies this
      ensures View() == Step(old(View()), Downlink(Sha256(router, downlinkId)), now, true).0
    {
      pendingDownlinkAcks := pendingDownlinkAcks[Sha256(router, downlinkId) := now];
    }

    method HandleTick(now: int)
      modifies this
      ensures View() == Step(old(View()), Tick, now, true).0
    {
      var deadline := now - ACK_DEADLINE;
      var todo := pendingDownlinkAcks.Keys;
      while todo != {}
        invariant lastGatewayEvent == old(lastGatewayEvent)
        invariant todo <= pendingDownlinkAcks.Keys <= old(pendingDownlinkAcks).Keys
        invariant forall k :: k in pendingDownlinkAcks ==> pendingDownlinkAcks[k] == old(pendingDownlinkAcks)[k]
        invariant forall k :: k in old(pendingDownlinkAcks) && k !in todo ==>
          (k in pendingDownlinkAcks <==> !(old(pendingDownlinkAcks)[k] < deadline))
        decreases todo
      {
        var key :| key in todo;
        todo := todo - {key};
        if pendingDownlinkAcks[key] < deadline {
          pendingDownlinkAcks := pendingDownlinkAcks - {key};
        }
      }
    }
  }
}
