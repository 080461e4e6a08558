/** The per-gateway statistics collector. Counters are 32-bit and wrap. */
module Stats {
  import opened Words
  import opened Frames

  /** The contents of a collector, and of one export. */
  datatype Counts = Counts(
    rx: uint32, tx: uint32,
    rxPerFreq: map<uint32, uint32>, txPerFreq: map<uint32, uint32>,
    rxPerModulation: map<string, uint32>, txPerModulation: map<string, uint32>,
    txStatus: map<AckStatus, uint32>)

  const ZERO := Counts(0, 0, map[], map[], map[], map[], map[])

  function At<K>(m: map<K, uint32>, k: K): uint32 { if k in m then m[k] else 0 }

  function Bump<K>(m: map<K, uint32>, k: K): map<K, uint32> { m[k := Add(At(m, k), 1)] }

  function UplinkCounted(c: Counts, frequency: uint32, modulation: Option<string>): Counts {
    if modulation.None? then c
    else c.(rx := Add(c.rx, 1),
            rxPerFreq := Bump(c.rxPerFreq, frequency),
            rxPerModulation := Bump(c.rxPerModulation, modulation.value))
  }

  function TransmissionCounted(c: Counts, frequency: uint32, modulation: string): Counts {
    c.(tx := Add(c.tx, 1),
       txPerFreq := Bump(c.txPerFreq, frequency),
       txPerModulation := Bump(c.txPerModulation, modulation))
  }

  function StatusCounted(c: Counts, status: AckStatus): Counts {
    c.(txStatus := Bump(c.txStatus, status))
  }

  /** Counting the acknowledgements from index `i` on; an OK item whose modulation cannot be
      encoded ends the count after its status was recorded. */
  function DownlinkCounted(c: Counts, items: seq<Item>, acks: seq<AckStatus>, i: nat): Counts
    requires i <= |acks|
    decreases |acks| - i
  {
    if i == |acks| then c
    else if acks[i] == IGNORED then DownlinkCounted(c, items, acks, i + 1)
    else
      var d := StatusCounted(c, acks[i]);
      if acks[i] == OK && i < |items| then
        if items[i].modulation.None? then d
        else DownlinkCounted(TransmissionCounted(d, items[i].frequency, items[i].modulation.value), items, acks, i + 1)
      else DownlinkCounted(d, items, acks, i + 1)
  }

  // ---------- conservation: every counter against what happened ----------

  /** The individual counters. */
  datatype Counter =
    | Rx | Tx
    | RxFreq(frequency: uint32) | TxFreq(frequency: uint32)
    | RxModulation(modulation: string) | TxModulation(modulation: string)
    | Status(status: AckStatus)

  function Read(c: Counts, k: Counter): uint32 {
    match k
    case Rx => c.rx
    case Tx => c.tx
    case RxFreq(f) => At(c.rxPerFreq, f)
    case TxFreq(f) => At(c.txPerFreq, f)
    case RxModulation(m) => At(c.rxPerModulation, m)
    case TxModulation(m) => At(c.txPerModulation, m)
    case Status(s) => At(c.txStatus, s)
  }

  datatype Event =
    | Uplink(frequency: uint32, modulation: Option<string>)
    | Downlink(items: seq<Item>, acks: seq<AckStatus>)
    | Export

  /** The acknowledgement at `i` ends the count of its report. */
  predicate EndsCount(items: seq<Item>, acks: seq<AckStatus>, i: nat)
    requires i < |acks|
  {
    acks[i] == OK && i < |items| && items[i].modulation.None?
  }

  /** The acknowledgement at `i` is a transmission: OK, for an item of the frame, encodable. */
  predicate IsTransmission(items: seq<Item>, acks: seq<AckStatus>, i: nat)
    requires i < |acks|
  {
    acks[i] == OK && i < |items| && items[i].modulation.Some?
  }

  /** The acknowledgement at `i` is one that counter `k` counts. */
  predicate IsCountedBy(items: seq<Item>, acks: seq<AckStatus>, i: nat, k: Counter)
    requires i < |acks|
  {
    match k
    case Tx => IsTransmission(items, acks, i)
    case TxFreq(f) => IsTransmission(items, acks, i) && items[i].frequency == f
    case TxModulation(m) => IsTransmission(items, acks, i) && items[i].modulation.value == m
    case Status(s) => acks[i] == s && s != IGNORED
    case _ => false
  }

  /** The indices from `from` on that counter `k` counts. */
  ghost function Counted(items: seq<Item>, acks: seq<AckStatus>, from: nat, k: Counter): set<nat> {
    set i: nat | from <= i < |acks| && IsCountedBy(items, acks, i, k)
                 && GoesOn(items, acks, from, i)
  }

  /** No acknowledgement from `from` up to `until` ends the count. */
  predicate GoesOn(items: seq<Item>, acks: seq<AckStatus>, from: nat, until: nat)
    requires until <= |acks|
  {
    forall j: nat :: from <= j < until ==> !EndsCount(items, acks, j)
  }

  /** How often counter `k` ought to be raised by an event. */
  ghost function Raises(e: Event, k: Counter): nat {
    match e
    case Uplink(f, m) =>
      if m.Some? && (k == Rx || k == RxFreq(f) || k == RxModulation(m.value)) then 1 else 0
    case Downlink(items, acks) => |Counted(items, acks, 0, k)|
    case Export => 0
  }

  /** The state after the acknowledgement at `i` alone was counted. */
  function AckCounted(c: Counts, items: seq<Item>, acks: seq<AckStatus>, i: nat): Counts
    requires i < |acks|
  {
    var d := if acks[i] == IGNORED then c else StatusCounted(c, acks[i]);
    if IsTransmission(items, acks, i)
    then TransmissionCounted(d, items[i].frequency, items[i].modulation.value) else d
  }

  lemma DownlinkUnrolls(c: Counts, items: seq<Item>, acks: seq<AckStatus>, i: nat)
    requires i < |acks|
    ensures DownlinkCounted(c, items, acks, i) ==
      if EndsCount(items, acks, i) then AckCounted(c, items, acks, i)
      else DownlinkCounted(AckCounted(c, items, acks, i), items, acks, i + 1)
  {
  }

  lemma AckRaises(c: Counts, items: seq<Item>, acks: seq<AckStatus>, i: nat, k: Counter)
    requires i < |acks|
    ensures Read(AckCounted(c, items, acks, i), k)
      == if IsCountedBy(items, acks, i, k) then Add(Read(c, k), 1) else Read(c, k)
  {
  }

  lemma GoesOnUnrolls(items: seq<Item>, acks: seq<AckStatus>, i: nat, until: nat)
    requires i < until <= |acks|
    ensures GoesOn(items, acks, i, until) <==> !EndsCount(items, acks, i) && GoesOn(items, acks, i + 1, until)
  {
  }

  lemma CountedSplits(items: seq<Item>, acks: seq<AckStatus>, i: nat, k: Counter, x: nat)
    requires i < |acks|
    ensures x in Counted(items, acks, i, k) <==>
      (x == i && IsCountedBy(items, acks, i, k)) || (!EndsCount(items, acks, i) && x in Counted(items, acks, i + 1, k))
  {
    if i < x < |acks| {
      GoesOnUnrolls(items, acks, i, x);
    }
  }

  lemma CountedUnrolls(items: seq<Item>, acks: seq<AckStatus>, i: nat, k: Counter)
    requires i < |acks|
    ensures |Counted(items, acks, i, k)| == (if IsCountedBy(items, acks, i, k) then 1 else 0)
      + if EndsCount(items, acks, i) then 0 else |Counted(items, acks, i + 1, k)|
  {
    var here: set<nat> := if IsCountedBy(items, acks, i, k) then {i} else {};
    var later := if EndsCount(items, acks, i) then {} else Counted(items, acks, i + 1, k);
    forall x: nat ensures x in Counted(items, acks, i, k) <==> x in here + later {
      CountedSplits(items, acks, i, k, x);
    }
    assert Counted(items, acks, i, k) == here + later && here !! later;
  }

  lemma ModInside(a: int, b: int)
    ensures (a + b % TWO_32) % TWO_32 == (a + b) % TWO_32
  {
  }

  lemma ModShift(a: int, b: int, n: int)
    requires a % TWO_32 == b % TWO_32
    ensures (a + n) % TWO_32 == (b + n) % TWO_32
  {
    ModInside(n, a);
    ModInside(n, b);
  }

  lemma LiveWraps(exported: int, live: int, raises: int, next: int)
    requires next == (live + raises) % TWO_32
    ensures (exported + next) % TWO_32 == (exported + live + raises) % TWO_32
  {
    ModInside(exported, live + raises);
  }

  lemma Chain(before: int, all: int, raises: int, after: int)
    requires before % TWO_32 == all % TWO_32
    requires after % TWO_32 == (before + raises) % TWO_32
    ensures after % TWO_32 == (all + raises) % TWO_32
  {
    ModShift(before, all, raises);
  }

  lemma AddOne(a: uint32, n: int)
    ensures (Add(a, 1) + n) % TWO_32 == (a + n + 1) % TWO_32
  {
  }

  /** Counting on from a state `here` counts later: the arithmetic of one turn of the loop. */
  lemma OneTurn(before: uint32, here: nat, after: uint32, later: nat, end: uint32)
    requires here <= 1 && after == if here == 1 then Add(before, 1) else before
    requires end == (after + later) % TWO_32
    ensures end == (before + here + later) % TWO_32
  {
    if here == 1 {
      AddOne(before, later);
    }
  }

  /** Counting from `i` on raises counter `k` by the number of acknowledgements it ought to count. */
  ghost predicate RaisedFrom(c: Counts, items: seq<Item>, acks: seq<AckStatus>, i: nat, k: Counter)
    requires i <= |acks|
  {
    Read(DownlinkCounted(c, items, acks, i), k) == (Read(c, k) + |Counted(items, acks, i, k)|) % TWO_32
  }

  lemma EndRaises(c: Counts, items: seq<Item>, acks: seq<AckStatus>, k: Counter)
    ensures RaisedFrom(c, items, acks, |acks|, k)
  {
    assert Counted(items, acks, |acks|, k) == {};
  }

  /** A turn of the loop that ends the count. */
  lemma LastTurnRaises(c: Counts, items: seq<Item>, acks: seq<AckStatus>, i: nat, k: Counter)
    requires i < |acks| && EndsCount(items, acks, i)
    ensures RaisedFrom(c, items, acks, i, k)
  {
    var here := if IsCountedBy(items, acks, i, k) then 1 else 0;
    var start, end := Read(c, k), Read(AckCounted(c, items, acks, i), k);
    assert Read(DownlinkCounted(c, items, acks, i), k) == end by { DownlinkUnrolls(c, items, acks, i); }
    assert |Counted(items, acks, i, k)| == here by { CountedUnrolls(items, acks, i, k); }
    assert end == if here == 1 then Add(start, 1) else start by { AckRaises(c, items, acks, i, k); }
    OneTurn(start, here, end, 0, end);
  }

  /** A turn after which the count goes on. */
  lemma TurnRaises(c: Counts, items: seq<Item>, acks: seq<AckStatus>, i: nat, k: Counter)
    requires i < |acks| && !EndsCount(items, acks, i)
    requires RaisedFrom(AckCounted(c, items, acks, i), items, acks, i + 1, k)
    ensures RaisedFrom(c, items, acks, i, k)
  {
    var next := AckCounted(c, items, acks, i);
    var here, later := if IsCountedBy(items, acks, i, k) then 1 else 0, |Counted(items, acks, i + 1, k)|;
    var start, after, end := Read(c, k), Read(next, k), Read(DownlinkCounted(next, items, acks, i + 1), k);
    assert Read(DownlinkCounted(c, items, acks, i), k) == end by { DownlinkUnrolls(c, items, acks, i); }
    assert |Counted(items, acks, i, k)| == here + later by { CountedUnrolls(items, acks, i, k); }
    assert after == if here == 1 then Add(start, 1) else start by { AckRaises(c, items, acks, i, k); }
    OneTurn(start, here, after, later, end);
  }

  lemma {:induction false} DownlinkRaises(c: Counts, items: seq<Item>, acks: seq<AckStatus>, i: nat, k: Counter)
    requires i <= |acks|
    ensures RaisedFrom(c, items, acks, i, k)
    decreases |acks| - i
  {
    if i == |acks| {
      EndRaises(c, items, acks, k);
    } else if EndsCount(items, acks, i) {
      LastTurnRaises(c, items, acks, i, k);
    } else {
      DownlinkRaises(AckCounted(c, items, acks, i), items, acks, i + 1, k);
      TurnRaises(c, items, acks, i, k);
    }
  }

  /** A collector together with the exports taken from it, oldest first. */
  datatype History = History(live: Counts, exports: seq<Counts>)

  function Step(h: History, e: Event): History {
    match e
    case Uplink(f, m) => h.(live := UplinkCounted(h.live, f, m))
    case Downlink(items, acks) => h.(live := DownlinkCounted(h.live, items, acks, 0))
    case Export => History(ZERO, h.exports + [h.live])
  }

  function Run(es: seq<Event>): History {
    if es == [] then History(ZERO, []) else Step(Run(es[..|es| - 1]), es[|es| - 1])
  }

  /** Everything exported so far for counter `k`. */
  function Exported(exports: seq<Counts>, k: Counter): nat {
    if exports == [] then 0 else Exported(exports[..|exports| - 1], k) + Read(exports[|exports| - 1], k)
  }

  ghost function AllRaises(es: seq<Event>, k: Counter): nat {
    if es == [] then 0 else AllRaises(es[..|es| - 1], k) + Raises(es[|es| - 1], k)
  }

  lemma StepConserves(h: History, e: Event, k: Counter)
    ensures Accounted(Step(h, e), k) % TWO_32 == (Accounted(h, k) + Raises(e, k)) % TWO_32
  {
    var next := Step(h, e);
    if e.Export? {
      assert next.exports[..|next.exports| - 1] == h.exports;
      assert Read(ZERO, k) == 0;
    } else {
      LiveRaises(h, e, k);
      LiveWraps(Exported(h.exports, k), Read(h.live, k), Raises(e, k), Read(next.live, k));
    }
  }

  lemma LiveRaises(h: History, e: Event, k: Counter)
    requires !e.Export?
    ensures Read(Step(h, e).live, k) == (Read(h.live, k) + Raises(e, k)) % TWO_32
    ensures Step(h, e).exports == h.exports
  {
    match e
    case Uplink(f, m) => UplinkRaises(h.live, f, m, k);
    case Downlink(items, acks) => DownlinkRaises(h.live, items, acks, 0, k);
  }

  lemma UplinkRaises(c: Counts, f: uint32, m: Option<string>, k: Counter)
    ensures Read(UplinkCounted(c, f, m), k) == (Read(c, k) + Raises(Uplink(f, m), k)) % TWO_32
  {
  }

  /** Everything counted so far, exported or not. */
  function Accounted(h: History, k: Counter): nat { Exported(h.exports, k) + Read(h.live, k) }

  /** Nothing is lost and nothing is counted twice: for every counter and every run, the sum of
      all exports and the live value is the number of times the counter ought to be raised. */
  lemma {:induction false} ExportsConserve(es: seq<Event>, k: Counter)
    ensures Accounted(Run(es), k) % TWO_32 == AllRaises(es, k) % TWO_32
  {
    if es != [] {
      var init, e := es[..|es| - 1], es[|es| - 1];
      ExportsConserve(init, k);
      StepConserves(Run(init), e, k);
      Chain(Accounted(Run(init), k), AllRaises(init, k), Raises(e, k), Accounted(Step(Run(init), e), k));
    }
  }

  /** There is an export for every `Export`, and it leaves nothing behind. */
  lemma {:induction false} ExportsEmpty(es: seq<Event>)
    ensures Run(es + [Export]).live == ZERO && Run(es + [Export]).exports == Run(es).exports + [Run(es).live]
  {
    assert (es + [Export])[..|es|] == es;
  }

  // ---------- conservation: totals against breakdowns ----------

  ghost function Sum<K>(m: map<K, uint32>): nat
    decreases |m|
  {
    if m == map[] then 0
    else
      var k :| k in m;
      SmallerWithout(m, k);
      m[k] + Sum(m - {k})
  }

  lemma SmallerWithout<K>(m: map<K, uint32>, k: K)
    requires k in m
    ensures |m - {k}| < |m|
  {
    assert (m - {k}).Keys == m.Keys - {k};
  }

  /** The sum does not depend on the order in which the entries are added. */
  lemma {:induction false} SumSplits<K>(m: map<K, uint32>, k: K)
    requires k in m
    ensures Sum(m) == m[k] + Sum(m - {k})
    decreases |m|
  {
    var c :| c in m && Sum(m) == m[c] + Sum(m - {c});
    if c != k {
      SmallerWithout(m, c);
      SmallerWithout(m, k);
      SumSplits(m - {c}, k);
      SumSplits(m - {k}, c);
      assert m - {c} - {k} == m - {k} - {c};
    }
  }

  ghost predicate IsTotal<K>(total: uint32, m: map<K, uint32>) { total == Sum(m) % TWO_32 }

  lemma BumpTotals<K>(total: uint32, m: map<K, uint32>, k: K)
    requires IsTotal(total, m)
    ensures IsTotal(Add(total, 1), Bump(m, k))
  {
    var b := Bump(m, k);
    SumSplits(b, k);
    assert b - {k} == m - {k};
    if k in m {
      SumSplits(m, k);
    } else {
      assert m - {k} == m;
    }
    ModInside(1, Sum(m));
  }

  /** Each total is the sum of its breakdown per frequency and per modulation. */
  ghost predicate Balanced(c: Counts) {
    && IsTotal(c.rx, c.rxPerFreq) && IsTotal(c.rx, c.rxPerModulation)
    && IsTotal(c.tx, c.txPerFreq) && IsTotal(c.tx, c.txPerModulation)
  }

  lemma AckBalanced(c: Counts, items: seq<Item>, acks: seq<AckStatus>, i: nat)
    requires i < |acks| && Balanced(c)
    ensures Balanced(AckCounted(c, items, acks, i))
  {
    if IsTransmission(items, acks, i) {
      BumpTotals(c.tx, c.txPerFreq, items[i].frequency);
      BumpTotals(c.tx, c.txPerModulation, items[i].modulation.value);
    }
  }

  lemma {:induction false} DownlinkBalanced(c: Counts, items: seq<Item>, acks: seq<AckStatus>, i: nat)
    requires i <= |acks| && Balanced(c)
    ensures Balanced(DownlinkCounted(c, items, acks, i))
    decreases |acks| - i
  {
    if i < |acks| {
      DownlinkUnrolls(c, items, acks, i);
      AckBalanced(c, items, acks, i);
      if !EndsCount(items, acks, i) {
        DownlinkBalanced(AckCounted(c, items, acks, i), items, acks, i + 1);
      }
    }
  }

  lemma UplinkBalanced(c: Counts, f: uint32, m: Option<string>)
    requires Balanced(c)
    ensures Balanced(UplinkCounted(c, f, m))
  {
    if m.Some? {
      BumpTotals(c.rx, c.rxPerFreq, f);
      BumpTotals(c.rx, c.rxPerModulation, m.value);
    }
  }

  /** In every reachable state, and in every export, totals and breakdowns agree. */
  lemma {:induction false} AlwaysBalanced(es: seq<Event>)
    ensures Balanced(Run(es).live)
    ensures forall x <- Run(es).exports :: Balanced(x)
  {
    if es != [] {
      var before, e := Run(es[..|es| - 1]), es[|es| - 1];
      AlwaysBalanced(es[..|es| - 1]);
      match e
      case Uplink(f, m) =>
        UplinkBalanced(before.live, f, m);
      case Downlink(items, acks) => DownlinkBalanced(before.live, items, acks, 0);
      case Export =>
    }
  }

  // ---------- transmissions against OK statuses ----------

  /** Every OK acknowledgement belongs to an item of the frame that can be encoded. */
  ghost predicate OksAreTransmissions(e: Event) {
    e.Downlink? ==> forall i: nat :: i < |e.acks| && e.acks[i] == OK ==> IsTransmission(e.items, e.acks, i)
  }

  lemma DownlinkTransmissions(e: Event)
    ensures Raises(e, Tx) <= Raises(e, Status(OK))
    ensures Raises(e, Tx) == Raises(e, Status(OK)) <==> OksAreTransmissions(e)
  {
    if e.Downlink? {
      var tx, ok := Counted(e.items, e.acks, 0, Tx), Counted(e.items, e.acks, 0, Status(OK));
      Subset(tx, ok);
      if OksAreTransmissions(e) {
        assert tx == ok;
      } else {
        var i := FirstMiss(e);
        assert i in ok && i !in tx;
        assert tx != ok;
      }
    }
  }

  lemma Subset(a: set<nat>, b: set<nat>)
    requires a <= b
    ensures |a| <= |b| && (|a| == |b| <==> a == b)
  {
    assert b == a + (b - a) && |b| == |a| + |b - a|;
  }

  /** The first OK acknowledgement that is not a transmission. */
  lemma FirstMiss(e: Event) returns (i: nat)
    requires e.Downlink? && !OksAreTransmissions(e)
    ensures i < |e.acks| && e.acks[i] == OK && !IsTransmission(e.items, e.acks, i)
    ensures forall j: nat :: j < i ==> !EndsCount(e.items, e.acks, j)
  {
    i :| i < |e.acks| && e.acks[i] == OK && !IsTransmission(e.items, e.acks, i);
    while exists j: nat :: j < i && EndsCount(e.items, e.acks, j)
      invariant i < |e.acks| && e.acks[i] == OK && !IsTransmission(e.items, e.acks, i)
      decreases i
    {
      var j: nat :| j < i && EndsCount(e.items, e.acks, j);
      i := j;
    }
  }

  /** Over a whole run, as many transmissions as OK statuses are counted exactly when every OK
      acknowledgement met an encodable item of its frame. */
  lemma {:induction false} TransmissionsAreOks(es: seq<Event>)
    ensures AllRaises(es, Tx) <= AllRaises(es, Status(OK))
    ensures AllRaises(es, Tx) == AllRaises(es, Status(OK)) <==> forall e <- es :: OksAreTransmissions(e)
  {
    if es != [] {
      var init, e := es[..|es| - 1], es[|es| - 1];
      TransmissionsAreOks(init);
      DownlinkTransmissions(e);
      assert es == init + [e];
    }
  }

  // ---------- the code ----------

  class Collector {
    var rxCount: uint32
    var txCount: uint32
    var rxPerFreqCount: map<uint32, uint32>
    var txPerFreqCount: map<uint32, uint32>
    var rxPerModulationCount: map<string, uint32>
    var txPerModulationCount: map<string, uint32>
    var txStatusCount: map<AckStatus, uint32>

    ghost function Value(): Counts
      reads this
    {
      Counts(rxCount, txCount, rxPerFreqCount, txPerFreqCount,
             rxPerModulationCount, txPerModulationCount, txStatusCount)
    }

    constructor ()
      ensures Value() == ZERO
    {
      new;
      Reset();
    }

    method CountUplink(frequency: uint32, modulation: Option<string>)
      modifies this
      ensures Value() == UplinkCounted(old(Value()), frequency, modulation)
    {
      if modulation.None? {
        return;
      }
      rxCount := Add(rxCount, 1);
      rxPerFreqCount := Bump(rxPerFreqCount, frequency);
      rxPerModulationCount := Bump(rxPerModulationCount, modulation.value);
    }

    method CountDownlink(items: seq<Item>, acks: seq<AckStatus>)
      modifies this
      ensures Value() == DownlinkCounted(old(Value()), items, acks, 0)
    {
      for i := 0 to |acks|
        invariant DownlinkCounted(Value(), items, acks, i) == DownlinkCounted(old(Value()), items, acks, 0)
      {
        if acks[i] != IGNORED {
          txStatusCount := Bump(txStatusCount, acks[i]);
          if acks[i] == OK && i < |items| {
            if items[i].modulation.None? {
              return;
            }
            txCount := Add(txCount, 1);
            txPerFreqCount := Bump(txPerFreqCount, items[i].frequency);
            txPerModulationCount := Bump(txPerModulationCount, items[i].modulation.value);
          }
        }
      }
    }

    method ExportStats() returns (stats: Counts)
      modifies this
      ensures stats == old(Value()) && Value() == ZERO
    {
      stats := Counts(rxCount, txCount, rxPerFreqCount, txPerFreqCount,
                      rxPerModulationCount, txPerModulationCount, txStatusCount);
      Reset();
    }

    method Reset()
      modifies this
      ensures Value() == ZERO
    {
      rxCount, txCount := 0, 0;
      rxPerFreqCount, txPerFreqCount := map[], map[];
      rxPerModulationCount, txPerModulationCount := map[], map[];
      txStatusCount := map[];
    }
  }
}
