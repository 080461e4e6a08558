/** The Semtech UDP backend's downlink side: the retry protocol run on a token cache whose
    acknowledgement slices are shared and written in place. */
module UdpBackend {
  import opened Words
  import opened Frames
  import opened Retry
  import opened Registry
  import Overlap
  import Stats

  /** What a report of `frame` makes of the statistics of the gateway that answered: only the
      final TX_ACK that names no error is counted, with all the statuses recorded before it. */
  function ReportCounted(c: Stats.Counts, e: Entry, frame: Frame): Stats.Counts
    requires e.input.TxAck? && e.outcome.Report?
  {
    if NamesError(e.input.error) then c else Stats.DownlinkCounted(c, frame.items, e.outcome.items, 0)
  }

  /** The item at `j` is recorded as OK. */
  predicate OkAt(acks: seq<AckStatus>, j: nat) { j < |acks| && acks[j] == OK }

  predicate Encodable(frame: Frame, j: nat) { j < |frame.items| && frame.items[j].modulation.Some? }

  /** The OK items up to the first one that cannot be encoded. */
  ghost function OkItems(acks: seq<AckStatus>, frame: Frame): set<nat> {
    set j: nat | j < |acks| && OkAt(acks, j) && forall i: nat :: i <= j && OkAt(acks, i) ==> Encodable(frame, i)
  }

  /** Every report raises the transmission count of the answering gateway by the number of OK
      items up to the first one that cannot be encoded, and not at all when its final TX_ACK names
      an error, even if that error is "OK". */
  lemma ReportRaises(e: Entry, frame: Frame, c: Stats.Counts)
    requires e.input.TxAck? && e.outcome.Report? && |e.outcome.items| == |frame.items|
    ensures ReportCounted(c, e, frame).tx ==
      (c.tx + if NamesError(e.input.error) then 0 else |OkItems(e.outcome.items, frame)|) % TWO_32
  {
    var acks := e.outcome.items;
    if !NamesError(e.input.error) {
      Stats.DownlinkRaises(c, frame.items, acks, 0, Stats.Tx);
      assert Stats.Counted(frame.items, acks, 0, Stats.Tx) == OkItems(acks, frame) by {
        forall j: nat ensures j in Stats.Counted(frame.items, acks, 0, Stats.Tx) <==> j in OkItems(acks, frame) {
          CountedIsOk(acks, frame, j);
        }
      }
    }
  }

  lemma CountedIsOk(acks: seq<AckStatus>, frame: Frame, j: nat)
    requires |acks| == |frame.items|
    ensures j in Stats.Counted(frame.items, acks, 0, Stats.Tx) <==> j in OkItems(acks, frame)
  {
    if j < |acks| {
      assert Stats.GoesOn(frame.items, acks, 0, j) <==> forall i: nat :: i < j && OkAt(acks, i) ==> Encodable(frame, i) by {
        assert forall i: nat :: i < j ==> (Stats.EndsCount(frame.items, acks, i) <==> OkAt(acks, i) && !Encodable(frame, i));
      }
    }
  }

  /** The first OK item of a report. */
  ghost predicate FirstOk(acks: seq<AckStatus>, j: nat) { OkAt(acks, j) && forall i: nat :: i < j ==> !OkAt(acks, i) }

  /** The second one. */
  ghost predicate SecondOk(acks: seq<AckStatus>, j: nat) {
    OkAt(acks, j) && exists i: nat :: i < j && FirstOk(acks, i) && forall k: nat :: i < k < j ==> !OkAt(acks, k)
  }

  lemma {:induction false} FirstOkExists(acks: seq<AckStatus>, j: nat) returns (first: nat)
    requires OkAt(acks, j)
    ensures first <= j && FirstOk(acks, first)
    decreases j
  {
    if i: nat :| i < j && OkAt(acks, i) {
      first := FirstOkExists(acks, i);
    } else {
      first := j;
    }
  }

  /** After the first OK, the next one at or before `j`. */
  lemma {:induction false} SecondOkExists(acks: seq<AckStatus>, first: nat, j: nat) returns (second: nat)
    requires FirstOk(acks, first) && first < j && OkAt(acks, j)
    ensures first < second <= j && SecondOk(acks, second)
    decreases j
  {
    if i: nat :| first < i < j && OkAt(acks, i) {
      second := SecondOkExists(acks, first, i);
    } else {
      second := j;
    }
  }

  lemma OneOkItemIff(acks: seq<AckStatus>, frame: Frame)
    ensures |OkItems(acks, frame)| == 1 <==>
      && (exists j: nat :: FirstOk(acks, j) && Encodable(frame, j))
      && forall j: nat :: SecondOk(acks, j) ==> !Encodable(frame, j)
  {
    var all := OkItems(acks, frame);
    if j: nat :| FirstOk(acks, j) && Encodable(frame, j) {
      assert j in all;
      if k: nat :| SecondOk(acks, k) && Encodable(frame, k) {
        var i: nat :| i < k && FirstOk(acks, i) && forall m: nat :: i < m < k ==> !OkAt(acks, m);
        assert i == j && k in all;
        TwoMembers(all, j, k);
      } else {
        forall k | k in all ensures k == j {
          if k > j {
            var second := SecondOkExists(acks, j, k);
            assert false;
          }
        }
        assert all == {j};
      }
    } else {
      forall k | k in all ensures false {
        var first := FirstOkExists(acks, k);
        assert false;
      }
      assert all == {};
    }
  }

  lemma TwoMembers(all: set<nat>, j: nat, k: nat)
    requires j in all && k in all && j != k
    ensures |all| >= 2
  {
    assert {j, k} <= all;
    assert |all - {j, k}| == |all| - |{j, k}|;
  }

  /** A report adds exactly one transmission if and only if its final TX_ACK names no error, its
      first OK item can be encoded, and its second one, should an earlier error have been named
      "OK", cannot. */
  lemma OkReportCountsOnce(e: Entry, frame: Frame, c: Stats.Counts)
    requires e.input.TxAck? && e.outcome.Report? && |e.outcome.items| == |frame.items| < TWO_32
    ensures ReportCounted(c, e, frame).tx == Add(c.tx, 1) <==>
      && !NamesError(e.input.error)
      && (exists j: nat :: FirstOk(e.outcome.items, j) && Encodable(frame, j))
      && forall j: nat :: SecondOk(e.outcome.items, j) ==> !Encodable(frame, j)
  {
    var acks := e.outcome.items;
    var all := |OkItems(acks, frame)|;
    assert all < TWO_32 by { FewItems(OkItems(acks, frame), |frame.items|); }
    var n := if NamesError(e.input.error) then 0 else all;
    assert ReportCounted(c, e, frame).tx == (c.tx + n) % TWO_32 by { ReportRaises(e, frame, c); }
    AddsOne(c.tx, n);
    OneOkItemIff(acks, frame);
  }

  lemma AddsOne(count: uint32, n: nat)
    requires n < TWO_32
    ensures (count + n) % TWO_32 == Add(count, 1) <==> n == 1
  {
    if count + n < TWO_32 {
      assert (count + n) % TWO_32 == count + n;
    } else {
      assert (count + n) % TWO_32 == count + n - TWO_32;
    }
  }

  lemma {:induction false} FewItems(all: set<nat>, bound: nat)
    requires forall j <- all :: j < bound
    ensures |all| <= bound
  {
    if bound > 0 {
      FewItems(all - {bound - 1}, bound - 1);
    }
  }

  /** In a run of one-step handlers whose gateways never give "OK" as an error name, every report of a transmission adds
      exactly one, unless the item transmitted cannot be encoded. */
  lemma WithoutOkNamesCountsOnce(inputs: seq<Input>, n: nat, frame: Frame, c: Stats.Counts)
    requires NoErrorNamedOk(inputs) && n < |inputs|
    requires Log(inputs)[n].outcome.Report? && |frame.items| < TWO_32
    requires Current(Log(inputs)[..n], Log(inputs)[n].outcome.token) == Some(frame)
    ensures var e := Log(inputs)[n];
      e.input.TxAck? && |e.outcome.items| == |frame.items|
      && (ReportCounted(c, e, frame).tx == Add(c.tx, 1) <==>
          !NamesError(e.input.error) && Encodable(frame, |Given(Log(inputs)[..n], e.outcome.token)|))
  {
    var e := Log(inputs)[n];
    EveryReportHasShape(inputs, n);
    LogPrefix(inputs, n);
    var given := Given(Log(inputs)[..n], e.outcome.token);
    assert forall i <- inputs[..n] :: i in inputs;
    GivenIsNotOk(inputs[..n], e.outcome.token);
    OkReportCountsOnce(e, frame, c);
    assert forall j: nat :: j < |given| ==> e.outcome.items[j] == given[j];
    if !NamesError(e.input.error) {
      assert FirstOk(e.outcome.items, |given|);
      assert forall j: nat :: OkAt(e.outcome.items, j) <==> j == |given|;
    }
  }

  /** When handlers overlap, a run without such error names can end with a report that adds two:
      the run of `OverlapGivesTwoOks`, for any two items that can be encoded. */
  lemma OverlapCountsTwice(cache: Cache, frame: Frame, online: set<Eui>, mac: Eui, error: Option<string>, c: Stats.Counts)
    requires |frame.items| == 2 && Encodable(frame, 0) && Encodable(frame, 1) && Overlap.NamesFailure(error)
    ensures var actions := Overlap.TwoOkActions(online, mac, error);
      && Overlap.Allowed(Overlap.Start(cache, frame, online), actions, frame)
      && var s := Overlap.Run(Overlap.Start(cache, frame, online), actions, frame);
         |s.outcomes| == 3 && s.outcomes[2].Report?
         && ReportCounted(c, Entry(TxAck(TokenOf(frame.downlinkId), mac, None, online), s.outcomes[2]), frame).tx ==
            (c.tx + 2) % TWO_32
  {
    Overlap.OverlapGivesTwoOks(cache, frame, online, mac, error);
    var e := Entry(TxAck(TokenOf(frame.downlinkId), mac, None, online),
                   Report(TokenOf(frame.downlinkId), mac, frame.downlinkId, [OK, OK]));
    ReportRaises(e, frame, c);
    assert OkItems([OK, OK], frame) == {0, 1};
  }

  class Backend {
    const registry: Gateways
    var frames: map<Token, Frame>
    var indices: map<Token, nat>
    var acks: map<Token, array<AckStatus>>

    /** No two tokens share an acknowledgement slice, and frames are cached under their own token. */
    ghost predicate Valid()
      reads this, registry
    {
      && registry.Valid()
      && (forall t :: t in frames ==> TokenOf(frames[t].downlinkId) == t)
      && forall t, u :: t in acks && u in acks && t != u ==> acks[t] != acks[u]
    }

    ghost function View(): Cache
      reads this, acks.Values
    {
      Cache(frames, indices, map t | t in acks :: acks[t][..])
    }

    constructor (registry: Gateways)
      requires registry.Valid()
      ensures Valid() && View() == CacheAfter([]) && this.registry == registry
    {
      this.registry := registry;
      frames, indices, acks := map[], map[], map[];
    }

    method SendDownlinkFrame(frame: Frame) returns (outcome: Outcome)
      requires Valid()
      modifies this
      ensures Valid()
      ensures View() == Step(old(View()), Downlink(frame, registry.gateways.Keys)).0
      ensures outcome == Step(old(View()), Downlink(frame, registry.gateways.Keys)).1
    {
      var items := new AckStatus[|frame.items|](_ => IGNORED);
      assert items[..] == Ignored(|frame.items|);
      outcome := SendItem(frame, 0, items);
    }

    /** Sets the three cache entries of a frame's token. */
    method CacheItem(frame: Frame, i: nat, items: array<AckStatus>)
      requires Valid()
      requires forall t :: t in acks && t != TokenOf(frame.downlinkId) ==> acks[t] != items
      modifies this
      ensures Valid()
      ensures var t, was := TokenOf(frame.downlinkId), old(View());
        View() == Cache(was.frames[t := frame], was.indices[t := i], was.acks[t := items[..]])
    {
      var t := TokenOf(frame.downlinkId);
      ghost var was := View().acks;
      acks := acks[t := items];
      frames := frames[t := frame];
      indices := indices[t := i];
      assert View().acks == was[t := items[..]];
    }

    /** Caches item `i` of the frame as the one being tried, and sends it when possible. */
    method SendItem(frame: Frame, i: nat, items: array<AckStatus>) returns (outcome: Outcome)
      requires Valid()
      requires forall t :: t in acks && t != TokenOf(frame.downlinkId) ==> acks[t] != items
      modifies this
      ensures Valid()
      ensures View() == Send(old(View()), frame, i, items[..], registry.gateways.Keys).0
      ensures outcome == Send(old(View()), frame, i, items[..], registry.gateways.Keys).1
    {
      if i >= |frame.items| {
        return Rejected;
      }
      var t := TokenOf(frame.downlinkId);
      CacheItem(frame, i, items);
      if frame.gatewayId.None? {
        return Attempt(t, i, false);
      }
      var gateway := registry.Get(frame.gatewayId.value);
      if gateway.None? || !frame.items[i].sendable {
        return Attempt(t, i, false);
      }
      return Attempt(t, i, true);
    }

    /** A cache entry reaches the end of its life. */
    method Expire(token: Token, part: Part)
      requires Valid()
      modifies this
      ensures Valid() && View() == Step(old(View()), Input.Expire(token, part)).0
    {
      match part
      case FramePart => frames := frames - {token};
      case IndexPart => indices := indices - {token};
      case AckPart =>
        ghost var was := View().acks;
        acks := acks - {token};
        assert View().acks == was - {token};
    }

    /** Handles a TX_ACK packet. The reported items are the cached slice itself. */
    method HandleTxAck(token: Token, mac: Eui, error: Option<string>) returns (outcome: Outcome)
      requires Valid()
      modifies this, acks.Values, registry.Collectors()
      ensures Valid() && registry.gateways == old(registry.gateways)
      ensures View() == Handle(old(View()), token, mac, error, registry.gateways.Keys).0
      ensures outcome == Handle(old(View()), token, mac, error, registry.gateways.Keys).1
      ensures forall g :: g in registry.gateways ==>
        (var stats := registry.gateways[g].stats;
         if g == mac && outcome.Report? && !NamesError(error)
         then stats.Value() == Stats.DownlinkCounted(old(stats.Value()), old(frames)[token].items, outcome.items, 0)
         else stats.Value() == old(stats.Value()))
    {
      if token !in frames || token !in indices || token !in acks {
        return Rejected;
      }
      if indices[token] >= acks[token].Length || acks[token].Length != |frames[token].items| {
        return OutOfSync;
      }
      if NamesError(error) {
        var status := StatusOfName(error.value);
        if status.None? {
          return Rejected;
        }
        outcome := HandleError(token, mac, status.value);
      } else {
        outcome := HandleSuccess(token, mac);
      }
    }

    method HandleError(token: Token, mac: Eui, status: AckStatus) returns (outcome: Outcome)
      requires Valid() && InSync(View(), token)
      modifies this, acks[token]
      ensures Valid()
      ensures View() == AfterError(old(View()), token, mac, status, registry.gateways.Keys).0
      ensures outcome == AfterError(old(View()), token, mac, status, registry.gateways.Keys).1
    {
      var frame, i, items := frames[token], indices[token], acks[token];
      Mark(token, i, status);
      if i + 1 < |frame.items| {
        outcome := SendItem(frame, i + 1, items);
      } else {
        outcome := Report(token, mac, frame.downlinkId, items[..]);
      }
    }

    method HandleSuccess(token: Token, mac: Eui) returns (outcome: Outcome)
      requires Valid() && InSync(View(), token)
      modifies acks[token], registry.Collectors()
      ensures View() == AfterSuccess(old(View()), token, mac).0
      ensures outcome == AfterSuccess(old(View()), token, mac).1
      ensures forall g :: g in registry.gateways ==>
        (var stats := registry.gateways[g].stats;
         stats.Value() == if g == mac then Stats.DownlinkCounted(old(stats.Value()), frames[token].items, outcome.items, 0)
                          else old(stats.Value()))
    {
      Mark(token, indices[token], OK);
      outcome := Report(token, mac, frames[token].downlinkId, acks[token][..]);
      CountTransmission(mac, frames[token].items, acks[token]);
    }

    /** Writes one status into the shared slice of a token. */
    method Mark(token: Token, i: nat, status: AckStatus)
      requires Valid() && token in acks && i < acks[token].Length
      modifies acks[token]
      ensures View() == old(View()).(acks := old(View()).acks[token := old(View()).acks[token][i := status]])
      ensures acks[token][..] == View().acks[token]
    {
      acks[token][i] := status;
    }

    method CountTransmission(mac: Eui, items: seq<Item>, statuses: array<AckStatus>)
      requires Valid()
      modifies registry.Collectors()
      ensures forall g :: g in registry.gateways ==>
        (var stats := registry.gateways[g].stats;
         stats.Value() == if g == mac then Stats.DownlinkCounted(old(stats.Value()), items, statuses[..], 0)
                          else old(stats.Value()))
    {
      var gateway := registry.Get(mac);
      if gateway.Some? {
        gateway.value.stats.CountDownlink(items, statuses[..]);
      }
    }
  }
}
