/** The downlink retry protocol of the Semtech UDP backend. A downlink frame carries several
    transmission opportunities; the next one is tried when the gateway answers the previous
    with an error. Three cache entries per 16-bit token (frame, item index, acknowledgements)
    carry the state between packets, and each of them can expire on its own.

    `Step` is the protocol as a function on values, each packet being handled in one step; what the
    protocol promises is stated over the log of a run. Handlers that overlap are the subject of
    `Overlap`. */
module Retry {
  import opened Words
  import opened Frames

  type Token = x: int | 0 <= x < 0x1_0000

  function TokenOf(downlinkId: uint32): Token { downlinkId % 0x1_0000 }

  datatype Cache = Cache(
    frames: map<Token, Frame>,
    indices: map<Token, nat>,
    acks: map<Token, seq<AckStatus>>)
  {
    predicate Complete(t: Token) { t in frames && t in indices && t in acks }
  }

  datatype Part = FramePart | IndexPart | AckPart

  /** What can happen. `online` is the set of gateways registered at that moment, `error` the
      error string of a TX_ACK, None when the packet has no payload. */
  datatype Input =
    | Downlink(frame: Frame, online: set<Eui>)
    | TxAck(token: Token, mac: Eui, error: Option<string>, online: set<Eui>)
    | Expire(token: Token, part: Part)

  datatype Outcome =
    | Nothing
    | Rejected
    | OutOfSync
    | Attempt(token: Token, index: nat, sent: bool)
    | Report(token: Token, mac: Eui, downlinkId: uint32, items: seq<AckStatus>)

  /** The error names the status enumeration knows besides its own OK and IGNORED. */
  const FAILURES: set<string> := {
    "TOO_LATE", "TOO_EARLY", "COLLISION_PACKET", "COLLISION_BEACON", "TX_FREQ", "TX_POWER",
    "GPS_UNLOCKED", "QUEUE_FULL", "INTERNAL_ERROR", "DUTY_CYCLE_OVERFLOW"
  }

  function StatusOfName(name: string): Option<AckStatus> {
    if name == "IGNORED" then Some(IGNORED)
    else if name == "OK" then Some(OK)
    else if name in FAILURES then Some(FAILURE(name))
    else None
  }

  predicate NamesError(error: Option<string>) { error.Some? && error.value != "" && error.value != "NONE" }

  function Send(c: Cache, frame: Frame, i: nat, acks: seq<AckStatus>, online: set<Eui>): (Cache, Outcome) {
    if i >= |frame.items| then (c, Rejected)
    else
      var t := TokenOf(frame.downlinkId);
      var sent := frame.gatewayId.Some? && frame.gatewayId.value in online && frame.items[i].sendable;
      (Cache(c.frames[t := frame], c.indices[t := i], c.acks[t := acks]), Attempt(t, i, sent))
  }

  function Ignored(n: nat): seq<AckStatus> { seq(n, _ => IGNORED) }

  /** A TX_ACK that names an error: record it and try the next item, or report at the last. */
  function AfterError(c: Cache, t: Token, mac: Eui, status: AckStatus, online: set<Eui>): (Cache, Outcome)
    requires c.Complete(t) && c.indices[t] < |c.acks[t]|
  {
    var frame, i := c.frames[t], c.indices[t];
    var marked := c.acks[t][i := status];
    var written := c.(acks := c.acks[t := marked]);
    if i + 1 < |frame.items| then Send(written, frame, i + 1, marked, online)
    else (written, Report(t, mac, frame.downlinkId, marked))
  }

  /** A TX_ACK without error: record the transmission and report. */
  function AfterSuccess(c: Cache, t: Token, mac: Eui): (Cache, Outcome)
    requires c.Complete(t) && c.indices[t] < |c.acks[t]|
  {
    var marked := c.acks[t][c.indices[t] := OK];
    (c.(acks := c.acks[t := marked]), Report(t, mac, c.frames[t].downlinkId, marked))
  }

  function Handle(c: Cache, t: Token, mac: Eui, error: Option<string>, online: set<Eui>): (Cache, Outcome) {
    if !c.Complete(t) then (c, Rejected)
    else if c.indices[t] >= |c.acks[t]| || |c.acks[t]| != |c.frames[t].items| then (c, OutOfSync)
    else if !NamesError(error) then AfterSuccess(c, t, mac)
    else if StatusOfName(error.value).None? then (c, Rejected)
    else AfterError(c, t, mac, StatusOfName(error.value).value, online)
  }

  function Step(c: Cache, input: Input): (Cache, Outcome) {
    match input
    case Downlink(frame, online) => Send(c, frame, 0, Ignored(|frame.items|), online)
    case TxAck(t, mac, error, online) => Handle(c, t, mac, error, online)
    case Expire(t, FramePart) => (c.(frames := c.frames - {t}), Nothing)
    case Expire(t, IndexPart) => (c.(indices := c.indices - {t}), Nothing)
    case Expire(t, AckPart) => (c.(acks := c.acks - {t}), Nothing)
  }

  // ---------- what the steps do, spelled out ----------

  /** A TX_ACK without payload, with an empty error, or with the error "NONE" is the same success. */
  lemma SuccessNames(c: Cache, t: Token, mac: Eui, online: set<Eui>)
    ensures Handle(c, t, mac, Some("NONE"), online) == Handle(c, t, mac, None, online)
    ensures Handle(c, t, mac, Some(""), online) == Handle(c, t, mac, None, online)
  {
  }

  /** The entries of token `t` are there and fit together. */
  predicate InSync(c: Cache, t: Token) {
    c.Complete(t) && c.indices[t] < |c.acks[t]| && |c.acks[t]| == |c.frames[t].items|
  }

  /** A success is recorded at the current item and reported, to the gateway that answered. */
  lemma SuccessIsReported(c: Cache, t: Token, mac: Eui, error: Option<string>, online: set<Eui>)
    requires InSync(c, t) && (error == None || error == Some("") || error == Some("NONE"))
    ensures var acks := c.acks[t][c.indices[t] := OK];
      Handle(c, t, mac, error, online) ==
        (Cache(c.frames, c.indices, c.acks[t := acks]), Report(t, mac, c.frames[t].downlinkId, acks))
  {
    SuccessNames(c, t, mac, online);
  }

  /** The failures a gateway can name. */
  predicate IsFailureName(name: string) {
    || name == "TOO_LATE" || name == "TOO_EARLY" || name == "COLLISION_PACKET" || name == "COLLISION_BEACON"
    || name == "TX_FREQ" || name == "TX_POWER" || name == "GPS_UNLOCKED" || name == "QUEUE_FULL"
    || name == "INTERNAL_ERROR" || name == "DUTY_CYCLE_OVERFLOW"
  }

  lemma FailureStatus(name: string)
    requires IsFailureName(name)
    ensures NamesError(Some(name)) && StatusOfName(name) == Some(FAILURE(name))
  {
    assert name[0] != 'N' && name[0] != 'O' && (name[0] != 'I' || name[1] != 'G');
  }

  /** A failure is recorded at the current item; the next item is tried, or the whole reported when
      there is none. A packet is sent exactly when the gateway of the frame is registered and a
      packet can be built of that item. */
  lemma FailureIsRetried(c: Cache, t: Token, mac: Eui, name: string, online: set<Eui>)
    requires InSync(c, t) && c.frames[t].downlinkId % 65536 == t && IsFailureName(name)
    ensures var frame, next := c.frames[t], c.indices[t] + 1;
      var acks := c.acks[t][c.indices[t] := FAILURE(name)];
      Handle(c, t, mac, Some(name), online) ==
        if next == |frame.items| then
          (Cache(c.frames, c.indices, c.acks[t := acks]), Report(t, mac, frame.downlinkId, acks))
        else
          (Cache(c.frames, c.indices[t := next], c.acks[t := acks]),
           Attempt(t, next, frame.gatewayId.Some? && frame.gatewayId.value in online && frame.items[next].sendable))
  {
    FailureStatus(name);
    var acks := c.acks[t][c.indices[t] := FAILURE(name)];
    assert c.frames[t := c.frames[t]] == c.frames && c.acks[t := acks][t := acks] == c.acks[t := acks];
  }

  /** Anything else is rejected, and so is a TX_ACK for which an entry is missing. */
  lemma RejectedUnchanged(c: Cache, t: Token, mac: Eui, name: string, online: set<Eui>)
    requires name !in ["", "NONE", "OK", "IGNORED"] && !IsFailureName(name)
    ensures InSync(c, t) ==> Handle(c, t, mac, Some(name), online) == (c, Rejected)
    ensures !c.Complete(t) ==> forall error: Option<string> :: Handle(c, t, mac, error, online) == (c, Rejected)
  {
  }

  /** A new frame replaces the three entries of its token, and its first item is tried. */
  lemma DownlinkIsCached(c: Cache, frame: Frame, online: set<Eui>)
    requires frame.items != []
    ensures var t := frame.downlinkId % 65536;
      var (next, outcome) := Step(c, Downlink(frame, online));
      && t in next.frames && next.frames[t] == frame && t in next.indices && next.indices[t] == 0
      && t in next.acks && |next.acks[t]| == |frame.items| && (forall s <- next.acks[t] :: s == IGNORED)
      && (forall u: Token :: u != t ==>
        && (u in next.frames <==> u in c.frames) && (u in c.frames ==> next.frames[u] == c.frames[u])
        && (u in next.indices <==> u in c.indices) && (u in c.indices ==> next.indices[u] == c.indices[u])
        && (u in next.acks <==> u in c.acks) && (u in c.acks ==> next.acks[u] == c.acks[u]))
      && outcome ==
        Attempt(t, 0, frame.gatewayId.Some? && frame.gatewayId.value in online && frame.items[0].sendable)
  {
    assert Step(c, Downlink(frame, online)) == Send(c, frame, 0, Ignored(|frame.items|), online);
    assert forall j :: 0 <= j < |frame.items| ==> Ignored(|frame.items|)[j] == IGNORED;
  }

  /** Whichever entry of a token has expired, its TX_ACKs are rejected. */
  lemma ExpiredIsRejected(c: Cache, t: Token, part: Part, mac: Eui, error: Option<string>, online: set<Eui>)
    ensures var next := Step(c, Expire(t, part)).0;
      Handle(next, t, mac, error, online) == (next, Rejected)
  {
  }

  // ---------- runs ----------

  datatype Entry = Entry(input: Input, outcome: Outcome)

  function CacheAfter(inputs: seq<Input>): Cache {
    if inputs == [] then Cache(map[], map[], map[])
    else Step(CacheAfter(inputs[..|inputs| - 1]), inputs[|inputs| - 1]).0
  }

  /** The run's log: each input with its outcome. */
  function Log(inputs: seq<Input>): (log: seq<Entry>)
    ensures |log| == |inputs|
  {
    if inputs == [] then []
    else
      var before := inputs[..|inputs| - 1];
      var input := inputs[|inputs| - 1];
      Log(before) + [Entry(input, Step(CacheAfter(before), input).1)]
  }

  predicate Begins(e: Entry, t: Token) { e.input.Downlink? && e.outcome.Attempt? && e.outcome.token == t }

  predicate Retries(e: Entry, t: Token) {
    e.input.TxAck? && NamesError(e.input.error) && e.outcome.Attempt? && e.outcome.token == t
  }

  /** The frame most recently accepted under token `t`. */
  function Current(log: seq<Entry>, t: Token): Option<Frame> {
    if log == [] then None
    else
      var e := log[|log| - 1];
      if Begins(e, t) then Some(e.input.frame) else Current(log[..|log| - 1], t)
  }

  /** The statuses the gateway gave, item by item, for that frame's failed attempts. */
  function Given(log: seq<Entry>, t: Token): seq<AckStatus> {
    if log == [] then []
    else
      var e, before := log[|log| - 1], log[..|log| - 1];
      if Begins(e, t) then []
      else if Retries(e, t) then Given(before, t) + [StatusOfName(e.input.error.value).GetOr(IGNORED)]
      else Given(before, t)
  }

  /** The item indices of the PULL_RESP packets sent for that frame, oldest first. */
  function SentItems(log: seq<Entry>, t: Token): seq<nat> {
    if log == [] then []
    else
      var e, before := log[|log| - 1], log[..|log| - 1];
      var sent := if e.outcome.Attempt? && e.outcome.token == t && e.outcome.sent then [e.outcome.index] else [];
      if Begins(e, t) then sent else SentItems(before, t) + sent
  }

  // ---------- coherence ----------

  /** The three entries of token `t`, when all present, tell one story, and it is the log's. */
  ghost predicate Coherent(c: Cache, log: seq<Entry>, t: Token) {
    && (t in c.frames ==> TokenOf(c.frames[t].downlinkId) == t && Current(log, t) == Some(c.frames[t]))
    && (t in c.frames && t in c.indices ==> c.indices[t] == |Given(log, t)| && c.indices[t] < |c.frames[t].items|)
    && (c.Complete(t) ==>
      var frame, i, acks := c.frames[t], c.indices[t], c.acks[t];
      && |frame.items| == |acks| && acks[..i] == Given(log, t)
      && forall j :: i < j < |acks| ==> acks[j] == IGNORED)
  }

  predicate AllBelow(xs: seq<nat>, bound: nat) { forall a :: 0 <= a < |xs| ==> xs[a] < bound }

  /** What has been sent is increasing, within the frame, and not beyond the current item. */
  ghost predicate InOrder(log: seq<Entry>, t: Token) {
    var sent := SentItems(log, t);
    && Increasing(sent) && AllBelow(sent, |Given(log, t)| + 1)
    && (sent != [] ==> Current(log, t).Some? && AllBelow(sent, |Current(log, t).value.items|))
  }

  lemma HandleCoherent(c: Cache, log: seq<Entry>, input: Input, t: Token)
    requires input.TxAck? && Coherent(c, log, t) && Coherent(c, log, input.token)
    ensures var (next, outcome) := Step(c, input);
      Coherent(next, log + [Entry(input, outcome)], t) && outcome != OutOfSync
  {
    var log' := log + [Entry(input, Step(c, input).1)];
    assert log'[..|log'| - 1] == log;
  }

  lemma StepCoherent(c: Cache, log: seq<Entry>, input: Input, t: Token)
    requires Coherent(c, log, t)
    requires input.TxAck? ==> Coherent(c, log, input.token)
    ensures var (next, outcome) := Step(c, input);
      Coherent(next, log + [Entry(input, outcome)], t) && outcome != OutOfSync
  {
    var log' := log + [Entry(input, Step(c, input).1)];
    assert log'[..|log'| - 1] == log;
    if input.TxAck? {
      HandleCoherent(c, log, input, t);
    }
  }

  /** A log entry that neither begins nor retries token `t` leaves its history alone. */
  lemma OtherEntry(log: seq<Entry>, e: Entry, t: Token)
    requires !Begins(e, t) && !Retries(e, t) && !(e.outcome.Attempt? && e.outcome.token == t)
    ensures Given(log + [e], t) == Given(log, t)
    ensures SentItems(log + [e], t) == SentItems(log, t)
    ensures Current(log + [e], t) == Current(log, t)
  {
    assert (log + [e])[..|log|] == log;
  }

  lemma BeginInOrder(log: seq<Entry>, e: Entry, t: Token)
    requires Begins(e, t) && e.outcome.index == 0 && e.input.frame.items != []
    ensures InOrder(log + [e], t)
  {
    assert (log + [e])[..|log|] == log;
  }

  lemma RetryInOrder(log: seq<Entry>, e: Entry, t: Token)
    requires InOrder(log, t) && Retries(e, t) && Current(log, t).Some?
    requires e.outcome.index == |Given(log, t)| + 1 && e.outcome.index < |Current(log, t).value.items|
    ensures InOrder(log + [e], t)
  {
    assert (log + [e])[..|log|] == log;
    assert SentItems(log + [e], t) == SentItems(log, t) + (if e.outcome.sent then [e.outcome.index] else []);
  }

  lemma StepInOrder(c: Cache, log: seq<Entry>, input: Input, t: Token)
    requires Coherent(c, log, t) && InOrder(log, t)
    requires input.TxAck? ==> Coherent(c, log, input.token)
    ensures InOrder(log + [Entry(input, Step(c, input).1)], t)
  {
    var e := Entry(input, Step(c, input).1);
    if Begins(e, t) {
      BeginInOrder(log, e, t);
    } else if Retries(e, t) {
      RetryInOrder(log, e, t);
    } else {
      OtherEntry(log, e, t);
    }
  }

  /** In every reachable state every token is coherent, nothing is ever found out of sync, and
      the items sent for a frame are strictly increasing. */
  lemma {:induction false} AlwaysCoherent(inputs: seq<Input>)
    ensures forall t: Token :: Coherent(CacheAfter(inputs), Log(inputs), t) && InOrder(Log(inputs), t)
    ensures forall e <- Log(inputs) :: e.outcome != OutOfSync
  {
    if inputs != [] {
      var before, input := inputs[..|inputs| - 1], inputs[|inputs| - 1];
      AlwaysCoherent(before);
      forall t: Token
        ensures Coherent(CacheAfter(inputs), Log(inputs), t) && InOrder(Log(inputs), t)
      {
        StepCoherent(CacheAfter(before), Log(before), input, t);
        StepInOrder(CacheAfter(before), Log(before), input, t);
      }
      StepCoherent(CacheAfter(before), Log(before), input, 0);
    }
  }

  /** A cached frame's downlink id is congruent to its token. */
  lemma TokenIsCongruent(inputs: seq<Input>, t: Token)
    requires t in CacheAfter(inputs).frames
    ensures CacheAfter(inputs).frames[t].downlinkId % 65536 == t
  {
    AlwaysCoherent(inputs);
    assert Coherent(CacheAfter(inputs), Log(inputs), t);
  }

  // ---------- retry order and bound ----------

  lemma {:induction false} IncreasingIsShort(xs: seq<nat>, bound: nat)
    requires Increasing(xs) && AllBelow(xs, bound)
    ensures |xs| <= bound
  {
    if xs != [] {
      IncreasingIsShort(xs[..|xs| - 1], xs[|xs| - 1]);
    }
  }

  /** Under any sequence of duplicated, reordered or unknown TX_ACKs and any expiry, no item of
      a frame is sent twice, and no more items are sent than the frame has. */
  lemma EachItemSentOnce(inputs: seq<Input>, t: Token)
    ensures var log := Log(inputs);
      var sent := SentItems(log, t);
      && Increasing(sent)
      && (sent != [] ==> Current(log, t).Some? && |sent| <= |Current(log, t).value.items|)
  {
    AlwaysCoherent(inputs);
    var log := Log(inputs);
    assert InOrder(log, t);
    if SentItems(log, t) != [] {
      IncreasingIsShort(SentItems(log, t), |Current(log, t).value.items|);
    }
  }

  // ---------- the shape of reports ----------

  /** A report made after `log`: the statuses the gateway gave for the earlier items, then the
      final one, OK or, at the last item only, the failure just named, then IGNORED. */
  ghost predicate ReportShape(log: seq<Entry>, e: Entry)
    requires e.input.TxAck? && e.outcome.Report?
  {
    var t, items, error := e.outcome.token, e.outcome.items, e.input.error;
    var given := Given(log, t);
    && t == e.input.token && e.outcome.mac == e.input.mac
    && Current(log, t).Some? && e.outcome.downlinkId == Current(log, t).value.downlinkId
    && |given| < |items| == |Current(log, t).value.items|
    && items[..|given|] == given
    && (if NamesError(error)
        then |given| + 1 == |items| && Some(items[|given|]) == StatusOfName(error.value)
        else items[|given|] == OK)
    && forall j :: |given| < j < |items| ==> items[j] == IGNORED
  }

  lemma {:induction false} LogPrefix(inputs: seq<Input>, n: nat)
    requires n < |inputs|
    ensures Log(inputs)[..n] == Log(inputs[..n])
    ensures Log(inputs)[n] == Entry(inputs[n], Step(CacheAfter(inputs[..n]), inputs[n]).1)
    decreases |inputs|
  {
    var before := inputs[..|inputs| - 1];
    if n < |before| {
      LogPrefix(before, n);
      assert before[..n] == inputs[..n];
    }
  }

  lemma ReportShaped(c: Cache, log: seq<Entry>, input: Input)
    requires input.TxAck? && Coherent(c, log, input.token) && Step(c, input).1.Report?
    ensures ReportShape(log, Entry(input, Step(c, input).1))
  {
    var t := input.token;
    var i, frame, acks := c.indices[t], c.frames[t], c.acks[t];
    assert Current(log, t) == Some(frame) && i == |Given(log, t)| < |frame.items| == |acks|;
    assert acks[..i] == Given(log, t) && forall j :: i < j < |acks| ==> acks[j] == IGNORED;
    var items := Step(c, input).1.items;
    assert items == acks[i := items[i]];
  }

  lemma AnyReportShaped(c: Cache, log: seq<Entry>, input: Input)
    requires (forall t: Token :: Coherent(c, log, t)) && Step(c, input).1.Report?
    ensures input.TxAck? && ReportShape(log, Entry(input, Step(c, input).1))
  {
    ReportShaped(c, log, input);
  }

  /** Every report of every run has that shape. */
  lemma EveryReportHasShape(inputs: seq<Input>, n: nat)
    requires n < |inputs| && Log(inputs)[n].outcome.Report?
    ensures Log(inputs)[n].input.TxAck? && ReportShape(Log(inputs)[..n], Log(inputs)[n])
  {
    LogPrefix(inputs, n);
    AlwaysCoherent(inputs[..n]);
    AnyReportShaped(CacheAfter(inputs[..n]), Log(inputs[..n]), inputs[n]);
  }

  function Oks(acks: seq<AckStatus>): nat { multiset(acks)[OK] }

  /** The final TX_ACK of a report is recorded as OK: it names no error, or the error "OK". */
  predicate FinalIsOk(error: Option<string>) { !NamesError(error) || error == Some("OK") }

  lemma {:induction false} NoOks(acks: seq<AckStatus>)
    requires forall j :: 0 <= j < |acks| ==> acks[j] == IGNORED
    ensures Oks(acks) == 0
  {
    assert OK !in acks;
  }

  lemma OksOfReport(log: seq<Entry>, e: Entry)
    requires e.input.TxAck? && e.outcome.Report? && ReportShape(log, e)
    ensures Oks(e.outcome.items) == Oks(Given(log, e.outcome.token)) + if FinalIsOk(e.input.error) then 1 else 0
  {
    var items, k := e.outcome.items, |Given(log, e.outcome.token)|;
    assert items == items[..k] + [items[k]] + items[k + 1..];
    NoOks(items[k + 1..]);
    assert multiset(items) == multiset(items[..k]) + multiset([items[k]]) + multiset(items[k + 1..]);
  }

  /** The report has at most one OK if and only if the OKs given before and the final one, when it
      is recorded as OK, are at most one. */
  predicate OneOkExactly(e: Entry, given: seq<AckStatus>)
    requires e.input.TxAck? && e.outcome.Report?
  {
    Oks(e.outcome.items) <= 1 <==> Oks(given) == 0 || (Oks(given) == 1 && !FinalIsOk(e.input.error))
  }

  /** The report of a run made at `n` has as many OK entries as error names "OK" came before the
      final TX_ACK, and one more when that one names no error or "OK" too. So it has at most one
      if and only if these are at most one. */
  lemma AtMostOneOkIff(inputs: seq<Input>, n: nat)
    requires n < |inputs| && Log(inputs)[n].outcome.Report?
    ensures Log(inputs)[n].input.TxAck?
    ensures OneOkExactly(Log(inputs)[n], Given(Log(inputs)[..n], Log(inputs)[n].outcome.token))
  {
    EveryReportHasShape(inputs, n);
    OksOfReport(Log(inputs)[..n], Log(inputs)[n]);
  }

  /** A report has an OK for an item other than the one last tried exactly when a gateway gave
      "OK" as the name of an error for one of the earlier items. */
  lemma OnlyFinalIsOk(log: seq<Entry>, e: Entry)
    requires e.input.TxAck? && e.outcome.Report? && ReportShape(log, e)
    ensures var items, given := e.outcome.items, Given(log, e.outcome.token);
      && ((forall j :: 0 <= j < |items| && j != |given| ==> items[j] != OK) <==> OK !in given)
      && (items[|given|] == OK <==> FinalIsOk(e.input.error))
  {
    var items, given := e.outcome.items, Given(log, e.outcome.token);
    assert forall j :: 0 <= j < |given| ==> items[j] == given[j];
  }

  /** No TX_ACK of the run carries the status name "OK" as its error. */
  predicate NoErrorNamedOk(inputs: seq<Input>) {
    forall i <- inputs :: i.TxAck? ==> i.error != Some("OK")
  }

  /** Without such error names no earlier item is ever recorded as OK, so that every report of
      the run has at most one OK. */
  lemma {:induction false} GivenIsNotOk(inputs: seq<Input>, t: Token)
    requires NoErrorNamedOk(inputs)
    ensures OK !in Given(Log(inputs), t)
  {
    if inputs != [] {
      var before := inputs[..|inputs| - 1];
      assert inputs[|inputs| - 1] in inputs;
      GivenIsNotOk(before, t);
      var log := Log(inputs);
      assert log[..|log| - 1] == Log(before);
    }
  }

  lemma OkIsAnErrorName()
    ensures NamesError(Some("OK")) && StatusOfName("OK") == Some(OK) && !NamesError(None)
  {
    assert "OK"[0] != "NONE"[0] && "OK"[0] != "IGNORED"[0];
  }

  lemma CacheAfterNext(inputs: seq<Input>, input: Input)
    ensures CacheAfter(inputs + [input]) == Step(CacheAfter(inputs), input).0
    ensures Log(inputs + [input]) == Log(inputs) + [Entry(input, Step(CacheAfter(inputs), input).1)]
  {
    assert (inputs + [input])[..|inputs|] == inputs;
  }

  /** The condition is needed: an error named "OK" is found in the status table, recorded as a
      success and retried, and the report then has two OK entries. */
  lemma ErrorNamedOkGivesTwo(frame: Frame, mac: Eui)
    requires |frame.items| == 2
    ensures var t := TokenOf(frame.downlinkId);
      var log := Log([Downlink(frame, {}), TxAck(t, mac, Some("OK"), {}), TxAck(t, mac, None, {})]);
      |log| == 3 && log[2].outcome == Report(t, mac, frame.downlinkId, [OK, OK])
  {
    var t := TokenOf(frame.downlinkId);
    var a, b, c := Downlink(frame, {}), TxAck(t, mac, Some("OK"), {}), TxAck(t, mac, None, {});
    OkIsAnErrorName();
    var first := CacheAfter([a]);
    assert [] + [a] == [a] && [a] + [b] == [a, b] && [a, b] + [c] == [a, b, c];
    assert first.Complete(t) && first.frames[t] == frame && first.indices[t] == 0 && first.acks[t] == [IGNORED, IGNORED] by {
      CacheAfterNext([], a);
    }
    var second := CacheAfter([a, b]);
    assert second.Complete(t) && second.frames[t] == frame && second.indices[t] == 1 && second.acks[t] == [OK, IGNORED] by {
      CacheAfterNext([a], b);
    }
    assert [OK, IGNORED][1 := OK] == [OK, OK];
    CacheAfterNext([a, b], c);
  }
}
