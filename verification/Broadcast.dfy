/** The broadcaster: producers put messages into a bounded channel without blocking, one loop
    takes them out and offers each to the listeners, and a listener not ready misses it. */
module Broadcast {
  import opened Words

  /** A listener's channel. */
  datatype Listener = Listener(channel: int)

  type Message = int

  /** `ready` are the listeners able to receive at that moment. A handoff passes a message to
      the loop directly, as Go does when the loop is waiting on an empty channel. */
  datatype Action =
    | Accept(message: Message)
    | Take(ready: set<Listener>)
    | Handoff(message: Message, ready: set<Listener>)
    | Subscribe(listener: Listener)
    | Unsubscribe(listener: Listener)

  /** Histories: what was taken, at which action each message was taken, and for each
      listener which of the taken messages it received, in order of reception. */
  datatype State = State(
    buffer: seq<Message>,
    listeners: set<Listener>,
    taken: seq<Message>,
    takenAt: seq<nat>,
    received: map<Listener, seq<nat>>)

  function ReceivedBy(s: State, l: Listener): seq<nat> { if l in s.received then s.received[l] else [] }

  predicate Enabled(s: State, a: Action, capacity: nat) {
    match a
    case Accept(_) => |s.buffer| < capacity
    case Take(_) => s.buffer != []
    case Handoff(_, _) => s.buffer == []
    case _ => true
  }

  /** Offers message `m` to all listeners at action number `n`. */
  function Offer(s: State, m: Message, ready: set<Listener>, n: nat): State {
    var i := |s.taken|;
    s.(taken := s.taken + [m], takenAt := s.takenAt + [n],
       received := map l | l in s.received.Keys + s.listeners ::
         ReceivedBy(s, l) + if l in s.listeners * ready then [i] else [])
  }

  function Apply(s: State, a: Action, n: nat): State
    requires a.Take? ==> s.buffer != []
  {
    match a
    case Accept(m) => s.(buffer := s.buffer + [m])
    case Take(ready) => Offer(s.(buffer := s.buffer[1..]), s.buffer[0], ready, n)
    case Handoff(m, ready) => Offer(s, m, ready, n)
    case Subscribe(l) => s.(listeners := s.listeners + {l})
    case Unsubscribe(l) => s.(listeners := s.listeners - {l})
  }

  predicate Allowed(actions: seq<Action>, capacity: nat)
    decreases |actions|, 0
  {
    actions == [] ||
    (Allowed(actions[..|actions| - 1], capacity)
     && Enabled(Run(actions[..|actions| - 1], capacity), actions[|actions| - 1], capacity))
  }

  function Run(actions: seq<Action>, capacity: nat): State
    requires Allowed(actions, capacity)
    decreases |actions|, 1
  {
    if actions == [] then State([], {}, [], [], map[])
    else Apply(Run(actions[..|actions| - 1], capacity), actions[|actions| - 1], |actions| - 1)
  }

  // ---------- histories ----------

  /** The listener's last call was a subscription. */
  predicate Subscribed(actions: seq<Action>, l: Listener) {
    if actions == [] then false
    else
      var a := actions[|actions| - 1];
      if a == Subscribe(l) then true
      else if a == Unsubscribe(l) then false
      else Subscribed(actions[..|actions| - 1], l)
  }

  /** Action number `n` takes a message while the listener is subscribed and ready. */
  predicate Reaches(actions: seq<Action>, n: nat, l: Listener) {
    && n < |actions| && (actions[n].Take? || actions[n].Handoff?)
    && l in actions[n].ready && Subscribed(actions[..n], l)
  }

  /** The listener received exactly the messages taken while it was subscribed and ready, in
      the order in which they were taken and each once. */
  ghost predicate ReceivedExactly(s: State, actions: seq<Action>, l: Listener) {
    && |s.takenAt| == |s.taken|
    && Increasing(ReceivedBy(s, l))
    && (forall i <- ReceivedBy(s, l) :: i < |s.taken|)
    && forall i: nat :: i < |s.taken| ==>
      s.takenAt[i] < |actions| && (i in ReceivedBy(s, l) <==> Reaches(actions, s.takenAt[i], l))
  }

  lemma {:induction false} ListenersSubscribed(actions: seq<Action>, capacity: nat, l: Listener)
    requires Allowed(actions, capacity)
    ensures l in Run(actions, capacity).listeners <==> Subscribed(actions, l)
  {
    if actions != [] {
      ListenersSubscribed(actions[..|actions| - 1], capacity, l);
    }
  }

  lemma ReachesPrefix(actions: seq<Action>, n: nat, m: nat, l: Listener)
    requires n < m <= |actions|
    ensures Reaches(actions[..m], n, l) <==> Reaches(actions, n, l)
  {
    assert actions[..m][..n] == actions[..n];
  }

  lemma OfferReceives(s: State, before: seq<Action>, a: Action, m: Message, l: Listener)
    requires ReceivedExactly(s, before, l) && (a.Take? || a.Handoff?)
    requires l in s.listeners <==> Subscribed(before, l)
    ensures ReceivedExactly(Offer(s, m, a.ready, |before|), before + [a], l)
  {
    var actions, t, n := before + [a], Offer(s, m, a.ready, |before|), |s.taken|;
    var was, now := ReceivedBy(s, l), ReceivedBy(t, l);
    assert now == was + if l in s.listeners * a.ready then [n] else [];
    IncreasingAppend(was, n);
    assert actions[..|before|] == before;
    assert Reaches(actions, |before|, l) <==> l in s.listeners * a.ready;
    assert t.takenAt[n] == |before|;
    forall i: nat | i < |t.taken|
      ensures t.takenAt[i] < |actions| && (i in now <==> Reaches(actions, t.takenAt[i], l))
    {
      if i < n {
        assert t.takenAt[i] == s.takenAt[i];
        ReachesPrefix(actions, s.takenAt[i], |before|, l);
        assert i in now <==> i in was;
      } else {
        assert n !in was;
      }
    }
  }

  /** In every run every listener received exactly what it should have. */
  lemma {:induction false} EveryListenerReceivesExactly(actions: seq<Action>, capacity: nat, l: Listener)
    requires Allowed(actions, capacity)
    ensures ReceivedExactly(Run(actions, capacity), actions, l)
  {
    if actions != [] {
      var before, a := actions[..|actions| - 1], actions[|actions| - 1];
      var s := Run(before, capacity);
      EveryListenerReceivesExactly(before, capacity, l);
      ListenersSubscribed(before, capacity, l);
      assert actions == before + [a];
      match a
      case Take(_) => OfferReceives(s.(buffer := s.buffer[1..]), before, a, s.buffer[0], l);
      case Handoff(m, _) => OfferReceives(s, before, a, m, l);
      case _ =>
        forall i: nat | i < |s.taken|
          ensures Reaches(before, s.takenAt[i], l) <==> Reaches(actions, s.takenAt[i], l)
        {
          ReachesPrefix(actions, s.takenAt[i], |before|, l);
        }
    }
  }

  /** The messages the channel accepted from producers, in order. */
  function Messages(actions: seq<Action>): seq<Message> {
    if actions == [] then []
    else
      match actions[|actions| - 1]
      case Accept(m) => Messages(actions[..|actions| - 1]) + [m]
      case Handoff(m, _) => Messages(actions[..|actions| - 1]) + [m]
      case _ => Messages(actions[..|actions| - 1])
  }

  /** Messages are taken in the order in which they were accepted, none is lost between, and
      no more than the channel's capacity are waiting. */
  lemma {:induction false} TakenInOrder(actions: seq<Action>, capacity: nat)
    requires Allowed(actions, capacity)
    ensures var s := Run(actions, capacity);
      Messages(actions) == s.taken + s.buffer && |s.buffer| <= capacity
  {
    if actions != [] {
      TakenInOrder(actions[..|actions| - 1], capacity);
    }
  }

  // ---------- the code ----------

  class Broadcaster {
    const capacity: nat
    var message: seq<Message>
    var listeners: map<Listener, bool>
    /** Everything that happened to this broadcaster. */
    ghost var log: seq<Action>

    ghost predicate Valid()
      reads this
    {
      && Allowed(log, capacity)
      && message == Run(log, capacity).buffer
      && listeners.Keys == Run(log, capacity).listeners
    }

    constructor (capacity: nat)
      ensures Valid() && log == [] && this.capacity == capacity
    {
      this.capacity, message, listeners, log := capacity, [], map[], [];
    }

    ghost method Happened(a: Action)
      requires Allowed(log, capacity) && Enabled(Run(log, capacity), a, capacity)
      modifies this`log
      ensures log == old(log) + [a] && Allowed(log, capacity)
      ensures Run(log, capacity) == Apply(Run(old(log), capacity), a, |old(log)|)
    {
      assert (log + [a])[..|log|] == log;
      log := log + [a];
    }

    /** Never blocks. When the loop is waiting on an empty channel, `waiting` being the listeners
        then ready, the message is handed over; otherwise a full channel refuses it. */
    method TryBroadcast(msg: Message, waiting: Option<set<Listener>>) returns (ok: bool)
      requires Valid()
      modifies this
      ensures Valid()
      ensures message == if ok && !(waiting.Some? && old(message) == []) then old(message) + [msg] else old(message)
      ensures ok <==> (waiting.Some? && old(message) == []) || |old(message)| < capacity
      ensures log == old(log) +
        if waiting.Some? && old(message) == [] then [Handoff(msg, waiting.value)]
        else if ok then [Accept(msg)] else []
    {
      if waiting.Some? && message == [] {
        Happened(Handoff(msg, waiting.value));
        return true;
      }
      if |message| >= capacity {
        return false;
      }
      Happened(Accept(msg));
      message := message + [msg];
      return true;
    }

    /** One turn of the loop that finds a message. */
    method TakeMessage(ready: set<Listener>) returns (msg: Message, receivers: set<Listener>)
      requires Valid() && message != []
      modifies this
      ensures Valid() && log == old(log) + [Take(ready)]
      ensures [msg] + message == old(message) && receivers == old(listeners).Keys * ready
    {
      Happened(Take(ready));
      msg, message := message[0], message[1..];
      receivers := SendToAll(ready);
    }

    /** The non-blocking sends to all listeners. */
    method SendToAll(ready: set<Listener>) returns (receivers: set<Listener>)
      ensures receivers == listeners.Keys * ready
    {
      receivers := {};
      var todo := listeners.Keys;
      while todo != {}
        invariant todo <= listeners.Keys && receivers == (listeners.Keys - todo) * ready
        decreases todo
      {
        var l :| l in todo;
        todo := todo - {l};
        if l in ready {
          receivers := receivers + {l};
        }
      }
    }

    method Subscribe(l: Listener)
      requires Valid()
      modifies this
      ensures Valid() && log == old(log) + [Action.Subscribe(l)]
    {
      Happened(Action.Subscribe(l));
      listeners := listeners[l := true];
    }

    method Unsubscribe(l: Listener)
      requires Valid()
      modifies this
      ensures Valid() && log == old(log) + [Action.Unsubscribe(l)]
    {
      Happened(Action.Unsubscribe(l));
      listeners := listeners - {l};
    }
  }
}
