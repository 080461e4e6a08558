/** The retry protocol when its handlers overlap. Each packet is handled on a goroutine of its own,
    so that sends and other handlers can come between the cache accesses of a handler. This module
    splits a handler into its reads and its writes, and a send into its three writes, and says
    exactly what the interleavings change. */
module Overlap {
  import opened Words
  import opened Frames
  import opened Retry

  // ---------- a handler that reads while a new frame is being sent ----------

  /** What a handler found in the three entries of its token. */
  datatype Reading = Reading(frame: Option<Frame>, index: Option<nat>, acks: Option<seq<AckStatus>>) {
    predicate Complete() { frame.Some? && index.Some? && acks.Some? }

    /** The check a handler makes before it goes on. */
    predicate InSync()
      requires Complete()
    {
      index.value < |acks.value| && |acks.value| == |frame.value.items|
    }

    predicate FindsOutOfSync() { Complete() && !InSync() }

    /** The handler goes on, and may write a status into the slice it read. */
    predicate GoesOn() { Complete() && InSync() }
  }

  function Lookup<T>(m: map<Token, T>, t: Token): Option<T> { if t in m then Some(m[t]) else None }

  /** The entries are read one after the other, each from the cache as it is by then. */
  function Reads(first: Cache, second: Cache, third: Cache, t: Token): Reading {
    Reading(Lookup(first.frames, t), Lookup(second.indices, t), Lookup(third.acks, t))
  }

  /** The cache after `k` of the three writes with which a new frame is sent: the
      acknowledgements, the frame, the index. */
  function Sending(c: Cache, frame: Frame, k: nat): Cache {
    var t := TokenOf(frame.downlinkId);
    Cache(if k >= 2 then c.frames[t := frame] else c.frames,
          if k >= 3 then c.indices[t := 0] else c.indices,
          if k >= 1 then c.acks[t := Ignored(|frame.items|)] else c.acks)
  }

  /** Reads in one go are those of the protocol, and all three writes are its send. */
  lemma WholeStepsAgree(c: Cache, t: Token, mac: Eui, error: Option<string>, frame: Frame, online: set<Eui>)
    ensures Handle(c, t, mac, error, online).1 == OutOfSync <==> Reads(c, c, c, t).FindsOutOfSync()
    ensures frame.items != [] ==> Sending(c, frame, 3) == Send(c, frame, 0, Ignored(|frame.items|), online).0
  {
  }

  /** A frame is sent under token `t` while a handler of `t` reads; `p`, `q` and `r` of its writes
      are done when the handler reads the frame, the index and the acknowledgements. In any cache
      a run can reach:
      the entries are out of sync exactly when an older frame of another size meets the new
      acknowledgements, or the older frame's index lies beyond the new frame;
      the handler goes on to the new frame's slice on behalf of an older frame exactly when both
      have the same size;
      and it goes on at an item the new frame has not tried exactly when it read the older frame's
      index and that was not the first. */
  lemma TornReads(inputs: seq<Input>, frame: Frame, p: nat, q: nat, r: nat)
    requires frame.items != [] && p <= q <= r <= 3
    ensures var c, t := CacheAfter(inputs), TokenOf(frame.downlinkId);
      var reading := Reads(Sending(c, frame, p), Sending(c, frame, q), Sending(c, frame, r), t);
      var oldFrame := p < 2 && t in c.frames && (q == 3 || t in c.indices) && r >= 1;
      var oldIndex := p >= 2 && q < 3 && t in c.indices;
      && (reading.FindsOutOfSync() <==>
          (oldFrame && |c.frames[t].items| != |frame.items|) || (oldIndex && c.indices[t] >= |frame.items|))
      && (reading.GoesOn() && p < 2 && r >= 1 <==> oldFrame && |c.frames[t].items| == |frame.items|)
      && (reading.GoesOn() && p >= 2 && reading.index.value > 0 <==> oldIndex && 0 < c.indices[t] < |frame.items|)
  {
    AlwaysCoherent(inputs);
    assert Coherent(CacheAfter(inputs), Log(inputs), TokenOf(frame.downlinkId));
  }

  /** In particular a TX_ACK handled in one go between the writes of a send is out of sync exactly
      when, after the first write, the older frame has another size, and after the second, the
      older frame's index lies beyond the new frame. */
  lemma HalfWrittenSendIsOutOfSync(inputs: seq<Input>, frame: Frame, k: nat, mac: Eui, error: Option<string>, online: set<Eui>)
    requires frame.items != [] && k <= 3
    ensures var c, t := CacheAfter(inputs), TokenOf(frame.downlinkId);
      Handle(Sending(c, frame, k), t, mac, error, online).1 == OutOfSync <==>
        || (k == 1 && t in c.frames && t in c.indices && |c.frames[t].items| != |frame.items|)
        || (k == 2 && t in c.indices && c.indices[t] >= |frame.items|)
  {
    TornReads(inputs, frame, k, k, k);
    WholeStepsAgree(Sending(CacheAfter(inputs), frame, k), TokenOf(frame.downlinkId), mac, error, frame, online);
  }

  // ---------- a handler's writes ----------

  /** What a handler of token `t` holds after its reads. The slice is shared: `acks` is what it
      contains when the handler goes on. */
  datatype Held = Held(frame: Frame, index: nat, acks: seq<AckStatus>) {
    predicate InSync() { index < |acks| && |acks| == |frame.items| }
  }

  /** The status the handler writes, if it writes one. */
  function Status(h: Held, error: Option<string>): Option<AckStatus> {
    if !h.InSync() then None
    else if !NamesError(error) then Some(OK)
    else StatusOfName(error.value)
  }

  function Marked(h: Held, error: Option<string>): seq<AckStatus> {
    match Status(h, error)
    case Some(status) => h.acks[h.index := status]
    case None => h.acks
  }

  predicate Retries(h: Held, error: Option<string>) {
    NamesError(error) && Status(h, error).Some? && h.index + 1 < |h.frame.items|
  }

  /** The handler's writes; `shared` tells whether the slice it holds is still the cached one. */
  function Act(c: Cache, h: Held, shared: bool, t: Token, mac: Eui, error: Option<string>, online: set<Eui>): (Cache, Outcome) {
    var marked := Marked(h, error);
    var written := if shared && t in c.acks then c.(acks := c.acks[t := marked]) else c;
    if !h.InSync() then (c, OutOfSync)
    else if Status(h, error).None? then (c, Rejected)
    else if Retries(h, error) then Send(written, h.frame, h.index + 1, marked, online)
    else (written, Report(t, mac, h.frame.downlinkId, marked))
  }

  /** Undisturbed, a handler is its reads followed by its writes. */
  lemma HandleIsReadsThenWrites(c: Cache, t: Token, mac: Eui, error: Option<string>, online: set<Eui>)
    requires c.Complete(t)
    ensures Handle(c, t, mac, error, online) == Act(c, Held(c.frames[t], c.indices[t], c.acks[t]), true, t, mac, error, online)
  {
  }

  // ---------- handlers of one frame that overlap ----------

  /** A handler under way: the index it read, and how many items were tried by then. */
  datatype Open = Open(index: nat, since: nat)

  /** A status written into the slice, and the error of the TX_ACK that gave it. */
  datatype Write = Write(index: nat, error: Option<string>)

  /** The time from the send of a frame to the next on its token: the cache, the shared slice, the
      handlers begun (None once they ended), and what happened, in order: the items tried, those of
      them for which a packet was sent, the statuses written, and how each handler ended. */
  datatype State = State(
    cache: Cache,
    slice: seq<AckStatus>,
    open: seq<Option<Open>>,
    tried: seq<nat>,
    sent: seq<nat>,
    written: seq<Write>,
    outcomes: seq<Outcome>)

  datatype Action =
    | Begin
    | Finish(k: nat, mac: Eui, error: Option<string>, online: set<Eui>)
    | Lapse(part: Part)

  /** The item of an attempt. */
  function TriedBy(o: Outcome): seq<nat> { if o.Attempt? then [o.index] else [] }

  /** The item of the packet that left, if one did. */
  function SentBy(o: Outcome): seq<nat> { if o.Attempt? && o.sent then [o.index] else [] }

  function Start(c: Cache, frame: Frame, online: set<Eui>): State {
    var (cache, outcome) := Send(c, frame, 0, Ignored(|frame.items|), online);
    State(cache, Ignored(|frame.items|), [], TriedBy(outcome), SentBy(outcome), [], [])
  }

  predicate Enabled(s: State, a: Action) { a.Finish? ==> a.k < |s.open| && s.open[a.k].Some? }

  /** What handler `k` holds. */
  function Holds(s: State, frame: Frame, k: nat): Held
    requires k < |s.open| && s.open[k].Some?
  {
    Held(frame, s.open[k].value.index, s.slice)
  }

  function Apply(s: State, a: Action, frame: Frame): State
    requires Enabled(s, a)
  {
    var t := TokenOf(frame.downlinkId);
    match a
    case Begin =>
      s.(open := s.open + [if s.cache.Complete(t) then Some(Open(s.cache.indices[t], |s.tried|)) else None])
    case Finish(k, mac, error, online) =>
      var h := Holds(s, frame, k);
      var (cache, outcome) := Act(s.cache, h, true, t, mac, error, online);
      State(cache, Marked(h, error), s.open[k := None], s.tried + TriedBy(outcome), s.sent + SentBy(outcome),
            if Status(h, error).Some? then s.written + [Write(h.index, error)] else s.written,
            s.outcomes + [outcome])
    case Lapse(part) => s.(cache := Retry.Step(s.cache, Expire(t, part)).0)
  }

  predicate Allowed(s: State, actions: seq<Action>, frame: Frame)
    decreases |actions|
  {
    actions == [] || (Enabled(s, actions[0]) && Allowed(Apply(s, actions[0], frame), actions[1..], frame))
  }

  function Run(s: State, actions: seq<Action>, frame: Frame): State
    requires Allowed(s, actions, frame)
    decreases |actions|
  {
    if actions == [] then s else Run(Apply(s, actions[0], frame), actions[1..], frame)
  }

  lemma RunTwo(s: State, a: Action, b: Action, frame: Frame)
    requires Enabled(s, a) && Enabled(Apply(s, a, frame), b)
    ensures Allowed(s, [a, b], frame)
    ensures Run(s, [a, b], frame) == Apply(Apply(s, a, frame), b, frame)
  {
    var t := Apply(s, a, frame);
    var u := Apply(t, b, frame);
    assert [a, b][1..] == [b] && [b][1..] == [];
    assert Allowed(u, [], frame) && Run(u, [], frame) == u;
    assert Allowed(t, [b], frame) && Run(t, [b], frame) == u;
  }

  lemma {:induction false} RunAppend(s: State, first: seq<Action>, second: seq<Action>, frame: Frame)
    requires Allowed(s, first, frame) && Allowed(Run(s, first, frame), second, frame)
    ensures Allowed(s, first + second, frame)
    ensures Run(s, first + second, frame) == Run(Run(s, first, frame), second, frame)
    decreases |first|
  {
    if first == [] {
      assert first + second == second;
    } else {
      assert (first + second)[1..] == first[1..] + second;
      RunAppend(Apply(s, first[0], frame), first[1..], second, frame);
    }
  }

  /** Whatever overlaps, the entries belong to the frame and no index leaves it. */
  ghost predicate InBounds(s: State, frame: Frame) {
    var t := TokenOf(frame.downlinkId);
    && |s.slice| == |frame.items|
    && (t in s.cache.frames ==> s.cache.frames[t] == frame)
    && (t in s.cache.indices ==> s.cache.indices[t] < |frame.items|)
    && (t in s.cache.acks ==> s.cache.acks[t] == s.slice)
    && (forall k :: 0 <= k < |s.open| && s.open[k].Some? ==> s.open[k].value.index < |frame.items|)
    && (forall i <- s.tried :: i < |frame.items|)
  }

  lemma StepInBounds(s: State, a: Action, frame: Frame)
    requires InBounds(s, frame) && Enabled(s, a)
    ensures InBounds(Apply(s, a, frame), frame)
  {
  }

  lemma {:induction false} StaysInBounds(s: State, actions: seq<Action>, frame: Frame)
    requires InBounds(s, frame) && Allowed(s, actions, frame)
    ensures InBounds(Run(s, actions, frame), frame)
    decreases |actions|
  {
    if actions != [] {
      StepInBounds(s, actions[0], frame);
      StaysInBounds(Apply(s, actions[0], frame), actions[1..], frame);
    }
  }

  /** Within one frame no interleaving of handlers ever finds entries out of sync, and every item
      tried is one of the frame's. */
  lemma OverlapStaysInBounds(c: Cache, frame: Frame, online: set<Eui>, actions: seq<Action>)
    requires frame.items != [] && Allowed(Start(c, frame, online), actions, frame)
    ensures var s := Run(Start(c, frame, online), actions, frame);
      && (forall k :: 0 <= k < |s.open| && s.open[k].Some? ==> Holds(s, frame, k).InSync())
      && forall i <- s.tried :: i < |frame.items|
  {
    StaysInBounds(Start(c, frame, online), actions, frame);
  }

  // ---------- what overlapping handlers send ----------

  /** Another handler tried an item between this one's reads and its own attempt. */
  predicate Overtaken(s: State, a: Action, frame: Frame)
    requires Enabled(s, a)
  {
    a.Finish? && Retries(Holds(s, frame, a.k), a.error) && s.open[a.k].value.since < |s.tried|
  }

  predicate SomeOvertaken(s: State, actions: seq<Action>, frame: Frame)
    requires Allowed(s, actions, frame)
    decreases |actions|
  {
    actions != [] && (Overtaken(s, actions[0], frame) || SomeOvertaken(Apply(s, actions[0], frame), actions[1..], frame))
  }

  predicate NoRepeats(xs: seq<nat>) { forall i, j :: 0 <= i < j < |xs| ==> xs[i] != xs[j] }

  /** As long as no handler was overtaken the items are tried one after the other, and every handler
      under way read the item tried last before it. */
  ghost predicate Orderly(s: State, frame: Frame) {
    var t := TokenOf(frame.downlinkId);
    && s.tried != [] && (forall i :: 0 <= i < |s.tried| ==> s.tried[i] == i)
    && Increasing(s.sent) && (forall i <- s.sent :: i < |s.tried|)
    && (t in s.cache.indices ==> s.cache.indices[t] == |s.tried| - 1)
    && (forall k :: 0 <= k < |s.open| && s.open[k].Some? ==>
      s.open[k].value.index + 1 == s.open[k].value.since <= |s.tried|)
  }

  lemma {:induction false} TriedGrows(s: State, actions: seq<Action>, frame: Frame)
    requires Allowed(s, actions, frame)
    ensures s.tried <= Run(s, actions, frame).tried
    decreases |actions|
  {
    if actions != [] {
      TriedGrows(Apply(s, actions[0], frame), actions[1..], frame);
    }
  }

  lemma StepOrderly(s: State, a: Action, frame: Frame)
    requires Orderly(s, frame) && Enabled(s, a)
    ensures Overtaken(s, a, frame) ==> !NoRepeats(Apply(s, a, frame).tried)
    ensures !Overtaken(s, a, frame) ==> Orderly(Apply(s, a, frame), frame)
  {
    if Overtaken(s, a, frame) {
      var i, tried := s.open[a.k].value.index + 1, Apply(s, a, frame).tried;
      assert tried[i] == i == tried[|tried| - 1];
    } else if a.Finish? && Retries(Holds(s, frame, a.k), a.error) {
      IncreasingAppend(s.sent, |s.tried|);
    }
  }

  lemma {:induction false} RunOrderly(s: State, actions: seq<Action>, frame: Frame)
    requires Orderly(s, frame) && Allowed(s, actions, frame)
    ensures NoRepeats(Run(s, actions, frame).tried) <==> !SomeOvertaken(s, actions, frame)
    ensures Increasing(Run(s, actions, frame).tried) <==> !SomeOvertaken(s, actions, frame)
    ensures !SomeOvertaken(s, actions, frame) ==> Increasing(Run(s, actions, frame).sent)
    decreases |actions|
  {
    if actions != [] {
      var t := Apply(s, actions[0], frame);
      StepOrderly(s, actions[0], frame);
      if Overtaken(s, actions[0], frame) {
        TriedGrows(t, actions[1..], frame);
        var i, j :| 0 <= i < j < |t.tried| && t.tried[i] == t.tried[j];
        var tried := Run(s, actions, frame).tried;
        assert tried[i] == tried[j];
      } else {
        RunOrderly(t, actions[1..], frame);
      }
    }
  }

  /** However the handlers of a frame's TX_ACKs overlap and its entries expire: an item is tried
      twice, and the items are out of order, exactly when some handler that retries was overtaken
      by another between its reads and its attempt. And if none was, the packets that leave are in
      order and no two are for the same item, whichever gateways are registered. */
  lemma RetriedIffOvertaken(c: Cache, frame: Frame, online: set<Eui>, actions: seq<Action>)
    requires frame.items != [] && Allowed(Start(c, frame, online), actions, frame)
    ensures var s := Start(c, frame, online);
      && (NoRepeats(Run(s, actions, frame).tried) <==> !SomeOvertaken(s, actions, frame))
      && (Increasing(Run(s, actions, frame).tried) <==> !SomeOvertaken(s, actions, frame))
      && (!SomeOvertaken(s, actions, frame) ==> Increasing(Run(s, actions, frame).sent))
  {
    RunOrderly(Start(c, frame, online), actions, frame);
  }

  /** Every packet of the frame can be sent: its gateway is registered, and packets can be built. */
  predicate Deliverable(frame: Frame, online: set<Eui>) {
    frame.gatewayId.Some? && frame.gatewayId.value in online && forall item <- frame.items :: item.sendable
  }

  predicate AllDeliverable(actions: seq<Action>, frame: Frame) {
    forall a <- actions :: a.Finish? ==> Deliverable(frame, a.online)
  }

  lemma {:induction false} AllTriedSent(s: State, actions: seq<Action>, frame: Frame)
    requires Allowed(s, actions, frame) && AllDeliverable(actions, frame) && s.sent == s.tried
    ensures Run(s, actions, frame).sent == Run(s, actions, frame).tried
    decreases |actions|
  {
    if actions != [] {
      assert actions[0] in actions && forall a <- actions[1..] :: a in actions;
      AllTriedSent(Apply(s, actions[0], frame), actions[1..], frame);
    }
  }

  /** While the gateway stays registered and all items can be sent, the packets repeat an item, and
      are out of order, exactly when some handler was overtaken so. */
  lemma RepeatsIffOvertaken(c: Cache, frame: Frame, online: set<Eui>, actions: seq<Action>)
    requires frame.items != [] && Allowed(Start(c, frame, online), actions, frame)
    requires Deliverable(frame, online) && AllDeliverable(actions, frame)
    ensures var s := Start(c, frame, online);
      && (NoRepeats(Run(s, actions, frame).sent) <==> !SomeOvertaken(s, actions, frame))
      && (Increasing(Run(s, actions, frame).sent) <==> !SomeOvertaken(s, actions, frame))
  {
    AllTriedSent(Start(c, frame, online), actions, frame);
    RetriedIffOvertaken(c, frame, online, actions);
  }

  /** The names of errors other than "OK" and "IGNORED". */
  predicate NamesFailure(error: Option<string>) { error.Some? && error.value in FAILURES }

  lemma FailureNamesError(error: Option<string>)
    requires NamesFailure(error)
    ensures NamesError(error) && StatusOfName(error.value) == Some(FAILURE(error.value)) && !FinalIsOk(error)
  {
    OkIsAnErrorName();
  }

  /** The state after two handlers read the first item of a new frame. */
  function BothBegun(c: Cache, frame: Frame, online: set<Eui>): State {
    Start(c, frame, online).(open := [Some(Open(0, 1)), Some(Open(0, 1))])
  }

  lemma BothBegin(c: Cache, frame: Frame, online: set<Eui>)
    requires frame.items != []
    ensures Allowed(Start(c, frame, online), [Begin, Begin], frame)
    ensures Run(Start(c, frame, online), [Begin, Begin], frame) == BothBegun(c, frame, online)
  {
    RunTwo(Start(c, frame, online), Begin, Begin, frame);
  }

  /** It does happen: two TX_ACKs with an error, both read before either is acted upon, make the
      second item of any frame be tried twice, and sent twice when it can be sent at all. */
  lemma DuplicateTxAckRepeats(c: Cache, frame: Frame, online: set<Eui>, mac: Eui, error: Option<string>)
    requires |frame.items| >= 2 && NamesError(error) && StatusOfName(error.value).Some?
    ensures var actions := [Begin, Begin] + [Finish(0, mac, error, online), Finish(1, mac, error, online)];
      && Allowed(Start(c, frame, online), actions, frame)
      && Run(Start(c, frame, online), actions, frame).tried == [0, 1, 1]
      && (Deliverable(frame, online) ==> Run(Start(c, frame, online), actions, frame).sent == [0, 1, 1])
  {
    var s, t := Start(c, frame, online), BothBegun(c, frame, online);
    BothBegin(c, frame, online);
    var x, y := Finish(0, mac, error, online), Finish(1, mac, error, online);
    RunTwo(t, x, y, frame);
    assert Apply(t, x, frame).tried == [0, 1];
    RunAppend(s, [Begin, Begin], [x, y], frame);
    if Deliverable(frame, online) {
      assert frame.items[0] in frame.items && frame.items[1] in frame.items;
    }
  }

  // ---------- what overlapping handlers report ----------

  /** The error of the TX_ACK that last gave item `j` a status. */
  function LastWrite(written: seq<Write>, j: nat): Option<Option<string>> {
    if written == [] then None
    else
      var w := written[|written| - 1];
      if w.index == j then Some(w.error) else LastWrite(written[..|written| - 1], j)
  }

  /** The status an accepted TX_ACK stands for. */
  function StatusFor(error: Option<string>): AckStatus {
    if NamesError(error) then StatusOfName(error.value).GetOr(IGNORED) else OK
  }

  /** The status last written for item `j`. */
  function LastStatus(written: seq<Write>, j: nat): AckStatus {
    match LastWrite(written, j)
    case Some(error) => StatusFor(error)
    case None => IGNORED
  }

  ghost predicate SliceIsWritten(s: State) {
    forall j: nat :: j < |s.slice| ==> s.slice[j] == LastStatus(s.written, j)
  }

  lemma StepWritten(s: State, a: Action, frame: Frame)
    requires Enabled(s, a) && SliceIsWritten(s)
    ensures SliceIsWritten(Apply(s, a, frame))
  {
    if a.Finish? && Status(Holds(s, frame, a.k), a.error).Some? {
      var w := Write(s.open[a.k].value.index, a.error);
      assert (s.written + [w])[..|s.written|] == s.written;
    }
  }

  lemma {:induction false} RunWritten(s: State, actions: seq<Action>, frame: Frame)
    requires Allowed(s, actions, frame) && SliceIsWritten(s)
    ensures SliceIsWritten(Run(s, actions, frame))
    decreases |actions|
  {
    if actions != [] {
      StepWritten(s, actions[0], frame);
      RunWritten(Apply(s, actions[0], frame), actions[1..], frame);
    }
  }

  /** Whatever overlaps, each item carries the status that was last given to it, by whichever
      handler, and is IGNORED when none was. */
  lemma SliceIsLastWritten(c: Cache, frame: Frame, online: set<Eui>, actions: seq<Action>, j: nat)
    requires j < |frame.items| && Allowed(Start(c, frame, online), actions, frame)
    ensures var s := Run(Start(c, frame, online), actions, frame);
      |s.slice| == |frame.items| && s.slice[j] == LastStatus(s.written, j)
  {
    StaysInBounds(Start(c, frame, online), actions, frame);
    RunWritten(Start(c, frame, online), actions, frame);
  }

  /** Item `j` was last given a status by a TX_ACK without error, or with the error "OK". */
  predicate LastWasOk(written: seq<Write>, j: nat) {
    LastWrite(written, j).Some? && FinalIsOk(LastWrite(written, j).value)
  }

  lemma OkStatus(error: Option<string>)
    ensures StatusFor(error) == OK <==> FinalIsOk(error)
  {
    OkIsAnErrorName();
  }

  lemma AtMostOneOk(acks: seq<AckStatus>)
    ensures Oks(acks) <= 1 <==> forall i, j :: 0 <= i < j < |acks| ==> !(acks[i] == OK && acks[j] == OK)
  {
    if i, j :| 0 <= i < j < |acks| && acks[i] == OK && acks[j] == OK {
      assert acks == acks[..j] + acks[j..];
      assert acks[..j][i] == OK && acks[j..][0] == OK;
      assert OK in multiset(acks[..j]) && OK in multiset(acks[j..]);
      assert multiset(acks) == multiset(acks[..j]) + multiset(acks[j..]);
    } else if i :| 0 <= i < |acks| && acks[i] == OK {
      assert acks == acks[..i] + [acks[i]] + acks[i + 1..];
      if forall i, j :: 0 <= i < j < |acks| ==> !(acks[i] == OK && acks[j] == OK) {
        assert forall k :: 0 <= k < |acks| && k != i ==> acks[k] != OK;
        assert OK !in acks[..i] && OK !in acks[i + 1..];
      }
      assert multiset(acks) == multiset(acks[..i]) + multiset([acks[i]]) + multiset(acks[i + 1..]);
    } else {
      assert OK !in acks;
    }
  }

  /** A handler that ends with a report reports the slice as it then is. It has at most one OK if
      and only if at most one item was last given a status by a TX_ACK without error, or with the
      error "OK": the exact condition for any overlap, the handler's own TX_ACK included. */
  lemma ReportHasOneOkIff(c: Cache, frame: Frame, online: set<Eui>, actions: seq<Action>, last: Action)
    requires frame.items != [] && Allowed(Start(c, frame, online), actions, frame) && last.Finish?
    requires var s := Run(Start(c, frame, online), actions, frame);
      Enabled(s, last) && Apply(s, last, frame).outcomes[|s.outcomes|].Report?
    ensures var s := Run(Start(c, frame, online), actions, frame);
      var t := Apply(s, last, frame);
      && t.outcomes == s.outcomes + [Report(TokenOf(frame.downlinkId), last.mac, frame.downlinkId, t.slice)]
      && (Oks(t.slice) <= 1 <==>
          forall i: nat, j: nat :: i < j < |frame.items| ==> !(LastWasOk(t.written, i) && LastWasOk(t.written, j)))
  {
    var start := Start(c, frame, online);
    var s := Run(start, actions, frame);
    var t := Apply(s, last, frame);
    StaysInBounds(start, actions, frame);
    RunWritten(start, actions, frame);
    StepWritten(s, last, frame);
    StepInBounds(s, last, frame);
    AtMostOneOk(t.slice);
    forall j: nat | j < |frame.items| ensures t.slice[j] == OK <==> LastWasOk(t.written, j) {
      if LastWrite(t.written, j).Some? { OkStatus(LastWrite(t.written, j).value); }
    }
  }

  /** A second failing input besides the error named "OK": two TX_ACKs, one with a failure and one
      without error, both read before either is acted upon, and then one without error. Every
      frame with two items is so reported with two OK entries. */
  lemma OverlapGivesTwoOks(c: Cache, frame: Frame, online: set<Eui>, mac: Eui, error: Option<string>)
    requires |frame.items| == 2 && NamesFailure(error)
    ensures var actions := TwoOkActions(online, mac, error);
      && Allowed(Start(c, frame, online), actions, frame)
      && var s := Run(Start(c, frame, online), actions, frame);
         |s.outcomes| == 3 && s.outcomes[2] == Report(TokenOf(frame.downlinkId), mac, frame.downlinkId, [OK, OK])
  {
    var s, t := Start(c, frame, online), BothBegun(c, frame, online);
    var x, y, z := Finish(0, mac, error, online), Finish(1, mac, None, online), Finish(2, mac, None, online);
    BothBegin(c, frame, online);
    FailureThenOk(c, frame, online, mac, error);
    var u := Run(t, [x, y], frame);
    OkForLastTried(u, frame, mac, online);
    RunAppend(t, [x, y], [Begin, z], frame);
    RunAppend(s, [Begin, Begin], [x, y] + [Begin, z], frame);
  }

  /** The failure is recorded and the second item tried; then the other handler records OK for the
      first item. */
  lemma FailureThenOk(c: Cache, frame: Frame, online: set<Eui>, mac: Eui, error: Option<string>)
    requires |frame.items| == 2 && NamesFailure(error)
    ensures var t, actions := BothBegun(c, frame, online), [Finish(0, mac, error, online), Finish(1, mac, None, online)];
      && Allowed(t, actions, frame)
      && var u := Run(t, actions, frame);
         && u.cache.Complete(TokenOf(frame.downlinkId)) && u.cache.indices[TokenOf(frame.downlinkId)] == 1
         && u.slice == [OK, IGNORED] && u.open == [None, None] && |u.outcomes| == 2
  {
    var t, x, y := BothBegun(c, frame, online), Finish(0, mac, error, online), Finish(1, mac, None, online);
    FailureNamesError(error);
    assert NamesError(None) == false;
    var first := Apply(t, x, frame);
    assert first.slice == [FAILURE(error.value), IGNORED] && first.open == [None, Some(Open(0, 1))];
    RunTwo(t, x, y, frame);
  }

  /** A TX_ACK without error for the item tried last. */
  lemma OkForLastTried(u: State, frame: Frame, mac: Eui, online: set<Eui>)
    requires |frame.items| == 2 && u.cache.Complete(TokenOf(frame.downlinkId)) && u.cache.indices[TokenOf(frame.downlinkId)] == 1
    requires u.slice == [OK, IGNORED] && u.open == [None, None] && |u.outcomes| == 2
    ensures var actions := [Begin, Finish(2, mac, None, online)];
      && Allowed(u, actions, frame)
      && Run(u, actions, frame).outcomes == u.outcomes + [Report(TokenOf(frame.downlinkId), mac, frame.downlinkId, [OK, OK])]
  {
    var v := Apply(u, Begin, frame);
    assert v.open == [None, None, Some(Open(1, |u.tried|))];
    var last := Finish(2, mac, None, online);
    assert [OK, IGNORED][1 := OK] == [OK, OK];
    assert Apply(v, last, frame).slice == [OK, OK];
    RunTwo(u, Begin, last, frame);
  }

  function TwoOkActions(online: set<Eui>, mac: Eui, error: Option<string>): seq<Action> {
    [Begin, Begin] +
    ([Finish(0, mac, error, online), Finish(1, mac, None, online)] + [Begin, Finish(2, mac, None, online)])
  }

  // ---------- a handler that outlives its frame ----------

  /** The handler's frame is sent, then a newer one under the same token, with any handlers of
      either in between; and then the handler, still under way, goes on. */
  ghost predicate Outlives(c: Cache, older: Frame, newer: Frame, online: set<Eui>, first: seq<Action>, second: seq<Action>, k: nat)
  {
    && older.items != [] && newer.items != [] && TokenOf(older.downlinkId) == TokenOf(newer.downlinkId)
    && Allowed(Start(c, older, online), first, older)
    && var s := Run(Start(c, older, online), first, older);
       k < |s.open| && s.open[k].Some? && Allowed(Start(s.cache, newer, online), second, newer)
  }

  /** Once it went on, the next TX_ACK without error is reported for the older frame if and only if
      the handler's TX_ACK named a known error and its item was not the last: the newer frame is
      displaced. Otherwise the cache is left as it was. */
  lemma LateHandlerDisplaces(c: Cache, older: Frame, newer: Frame, online: set<Eui>, first: seq<Action>, second: seq<Action>,
                             k: nat, mac: Eui, error: Option<string>)
    requires Outlives(c, older, newer, online, first, second, k)
    ensures var s := Run(Start(c, older, online), first, older);
      var u := Run(Start(s.cache, newer, online), second, newer);
      var t, h := TokenOf(older.downlinkId), Holds(s, older, k);
      var next := Act(u.cache, h, false, t, mac, error, online).0;
      var retries := NamesError(error) && StatusOfName(error.value).Some? && h.index + 1 < |older.items|;
      && (!retries ==> next == u.cache)
      && (u.cache.Complete(t) ==>
          var outcome := Handle(next, t, mac, None, online).1;
          outcome.Report? && outcome.downlinkId == if retries then older.downlinkId else newer.downlinkId)
  {
    var s := Run(Start(c, older, online), first, older);
    var u := Run(Start(s.cache, newer, online), second, newer);
    StaysInBounds(Start(c, older, online), first, older);
    StaysInBounds(Start(s.cache, newer, online), second, newer);
    LateRetryCaches(u.cache, Holds(s, older, k), mac, error, online);
  }

  lemma LateRetryCaches(c: Cache, h: Held, mac: Eui, error: Option<string>, online: set<Eui>)
    requires h.InSync()
    ensures var t := TokenOf(h.frame.downlinkId);
      Act(c, h, false, t, mac, error, online).0 == if !Retries(h, error) then c else
        Cache(c.frames[t := h.frame], c.indices[t := h.index + 1], c.acks[t := Marked(h, error)])
  {
  }
}
