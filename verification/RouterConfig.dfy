/** The SX1301 part of the BasicStation router-config message: each concentrator's channels
    are planned on two radios and entered, as offsets from a radio, into channel slots. */
module RouterConfig {
  import opened Words
  import opened Planner

  const MULTI_SF_BANDWIDTH: uint32 := 125000
  const MULTI_SF_FACTORS: seq<uint32> := [7, 8, 9, 10, 11, 12]
  const SLOTS := 8

  datatype LoraStd = LoraStd(frequency: uint32, bandwidth: uint32, spreadingFactor: uint32)

  /** A concentrator's configuration; an FSK or LoRa-std frequency of zero means "none". */
  datatype Concentrator = Concentrator(multiSF: seq<uint32>, fsk: uint32, loraStd: LoraStd)

  datatype RadioSlot = RadioSlot(enable: bool, freq: uint32)

  datatype MultiSFSlot = MultiSFSlot(enable: bool, radio: nat, offset: int)

  datatype LoraStdSlot =
    LoraStdSlot(enable: bool, radio: nat, offset: int, bandwidth: uint32, spreadingFactor: uint32)

  datatype SX1301Conf =
    SX1301Conf(radios: seq<RadioSlot>, fsk: bool, loraStd: LoraStdSlot, multiSF: seq<MultiSFSlot>)

  datatype Error = NoRadioFrequencies(frequency: uint32) | NoRadioForChannel

  datatype Result<T> = Ok(value: T) | Err(error: Error)

  const UNUSED_STD := LoraStdSlot(false, 0, 0, 0, 0)
  const UNUSED_SLOT := MultiSFSlot(false, 0, 0)
  const EMPTY_CONF := SX1301Conf([RadioSlot(false, 0), RadioSlot(false, 0)], false, UNUSED_STD,
                                 seq(SLOTS, _ => UNUSED_SLOT))

  function MultiSFChannel(frequency: uint32): Channel {
    Channel(frequency, Lora(MULTI_SF_BANDWIDTH, MULTI_SF_FACTORS))
  }

  function FskChannel(frequency: uint32): Channel { Channel(frequency, Fsk(125000, 50000)) }

  function StdChannel(std: LoraStd): Channel {
    Channel(std.frequency, Lora(std.bandwidth, [std.spreadingFactor]))
  }

  function MultiSFChannels(fs: seq<uint32>): seq<Channel> {
    seq(|fs|, i requires 0 <= i < |fs| => MultiSFChannel(fs[i]))
  }

  /** The channels of a concentrator, in the order in which they are appended. */
  function ChannelsOf(conf: Concentrator): seq<Channel> {
    MultiSFChannels(conf.multiSF)
    + (if conf.fsk != 0 then [FskChannel(conf.fsk)] else [])
    + (if conf.loraStd.frequency != 0 then [StdChannel(conf.loraStd)] else [])
  }

  predicate IsMulti(c: Channel) { c.modulation.Lora? && |c.modulation.spreadingFactors| != 1 }

  predicate IsStd(c: Channel) { c.modulation.Lora? && |c.modulation.spreadingFactors| == 1 }

  // ---------- what a configuration means ----------

  /** The frequency a receiver tunes to: its radio's centre plus the offset. */
  function Tuned(radios: seq<RadioSlot>, radio: nat, offset: int): int
    requires radio < |radios|
  {
    radios[radio].freq + offset
  }

  /** An offset keeps a channel of the given width within the bandwidth of an enabled radio. */
  predicate WithinRadio(radios: seq<RadioSlot>, radio: nat, offset: int, width: uint32)
    requires radio < |radios|
  {
    radios[radio].enable && -Reach(width) <= offset <= Reach(width)
  }

  ghost predicate Ascending(fs: seq<uint32>) { forall i, j :: 0 <= i < j < |fs| ==> fs[i] <= fs[j] }

  /** Slot `k` receives the `k`-th of the frequencies, or is disabled when there is none. */
  ghost predicate SlotServes(radios: seq<RadioSlot>, slot: MultiSFSlot, k: nat, fs: seq<uint32>) {
    && (slot.enable <==> k < |fs|)
    && (k < |fs| ==>
      && slot.radio < |radios|
      && Tuned(radios, slot.radio, slot.offset) == fs[k]
      && WithinRadio(radios, slot.radio, slot.offset, 125000))
  }

  ghost predicate SlotsServe(radios: seq<RadioSlot>, slots: seq<MultiSFSlot>, fs: seq<uint32>) {
    |slots| == SLOTS && forall k :: 0 <= k < SLOTS ==> SlotServes(radios, slots[k], k, fs)
  }

  /** The multi-SF slots serve the configured frequencies in ascending order, each once, as a
      prefix of the slots (only the eight lowest when there are more than eight). */
  ghost predicate MultiSFConserved(conf: SX1301Conf, frequencies: seq<uint32>) {
    exists fs: seq<uint32> ::
      multiset(fs) == multiset(frequencies) && Ascending(fs) && SlotsServe(conf.radios, conf.multiSF, fs)
  }

  ghost predicate StdServes(radios: seq<RadioSlot>, slot: LoraStdSlot, std: LoraStd) {
    && slot.radio < |radios|
    && Tuned(radios, slot.radio, slot.offset) == std.frequency
    && WithinRadio(radios, slot.radio, slot.offset, std.bandwidth)
    && slot.bandwidth == std.bandwidth && slot.spreadingFactor == std.spreadingFactor
  }

  /** The configuration receives exactly what the concentrator was asked to receive. */
  ghost predicate Conserves(conf: SX1301Conf, asked: Concentrator) {
    && |conf.radios| == 2 && (forall r <- conf.radios :: r.enable <==> r.freq != 0)
    && MultiSFConserved(conf, asked.multiSF)
    && |conf.multiSF| == 8
    && (conf.fsk <==> asked.fsk != 0)
    && (conf.fsk ==> FskServed(conf.radios, asked.fsk))
    && (conf.loraStd.enable <==> asked.loraStd.frequency != 0)
    && (conf.loraStd.enable ==> StdServes(conf.radios, conf.loraStd, asked.loraStd))
  }

  // ---------- frequencies of the multi-SF channels ----------

  /** The frequencies of the multi-SF channels, in list order. */
  function MultiOf(cs: seq<Channel>): seq<uint32> {
    if cs == [] then []
    else
      var c := cs[|cs| - 1];
      MultiOf(cs[..|cs| - 1]) + (if IsMulti(c) then [c.frequency] else [])
  }

  ghost predicate HasStd(cs: seq<Channel>) { exists c <- cs :: IsStd(c) }

  ghost predicate HasFsk(cs: seq<Channel>) { exists c <- cs :: c.modulation.Fsk? }

  /** Every channel is one the configuration asked for. */
  ghost predicate Asked(cs: seq<Channel>, asked: Concentrator) {
    && (forall c <- cs :: IsMulti(c) ==> c == MultiSFChannel(c.frequency))
    && (forall c <- cs :: IsStd(c) ==> c == StdChannel(asked.loraStd) && c.frequency != 0)
  }

  lemma {:induction false} MultiCount(cs: seq<Channel>, f: uint32)
    requires forall c <- cs :: IsMulti(c) ==> c == MultiSFChannel(c.frequency)
    ensures multiset(MultiOf(cs))[f] == multiset(cs)[MultiSFChannel(f)]
  {
    if cs != [] {
      var init, c := cs[..|cs| - 1], cs[|cs| - 1];
      assert cs == init + [c];
      MultiCount(init, f);
    }
  }

  lemma {:induction false} MultiOfMember(cs: seq<Channel>, f: uint32)
    requires forall c <- cs :: IsMulti(c) ==> c == MultiSFChannel(c.frequency)
    requires f in MultiOf(cs)
    ensures MultiSFChannel(f) in cs
  {
    MultiCount(cs, f);
    assert MultiSFChannel(f) in multiset(cs);
  }

  lemma MultiBelow(cs: seq<Channel>, c: Channel, f: uint32)
    requires AllInBand(cs) && forall x <- cs :: IsMulti(x) ==> x == MultiSFChannel(x.frequency)
    requires forall x <- cs :: MinRadioCenter(x) <= MinRadioCenter(c)
    requires c == MultiSFChannel(c.frequency) && InBand(c)
    requires f in MultiOf(cs)
    ensures f <= c.frequency
  {
    MultiOfMember(cs, f);
    MultiSFCenter(f);
    MultiSFCenter(c.frequency);
    assert MinRadioCenter(MultiSFChannel(f)) <= MinRadioCenter(c);
  }

  lemma AscendingAppend(fs: seq<uint32>, f: uint32)
    requires Ascending(fs) && forall x <- fs :: x <= f
    ensures Ascending(fs + [f])
  {
    assert forall i :: 0 <= i < |fs| ==> fs[i] in fs;
  }

  lemma {:induction false} MultiAscending(cs: seq<Channel>)
    requires AllInBand(cs) && Sorted(cs)
    requires forall c <- cs :: IsMulti(c) ==> c == MultiSFChannel(c.frequency)
    ensures Ascending(MultiOf(cs))
  {
    if cs != [] {
      var init, c := cs[..|cs| - 1], cs[|cs| - 1];
      assert cs == init + [c];
      SortedInit(init, c);
      MultiAscending(init);
      if IsMulti(c) {
        forall f | f in MultiOf(init) ensures f <= c.frequency {
          MultiBelow(init, c, f);
        }
        AscendingAppend(MultiOf(init), c.frequency);
      }
    }
  }

  lemma MultiSFCenter(f: uint32)
    requires InBand(MultiSFChannel(f))
    ensures MinRadioCenter(MultiSFChannel(f)) == f + 400000
  {
  }

  lemma {:induction false} MultiOfAppend(cs: seq<Channel>, ds: seq<Channel>)
    ensures MultiOf(cs + ds) == MultiOf(cs) + MultiOf(ds)
  {
    if ds == [] {
      assert cs + ds == cs;
    } else {
      var init := ds[..|ds| - 1];
      MultiOfAppend(cs, init);
      assert (cs + ds)[..|cs + ds| - 1] == cs + init;
    }
  }

  lemma {:induction false} MultiOfMultiSF(fs: seq<uint32>)
    ensures MultiOf(MultiSFChannels(fs)) == fs
  {
    if fs != [] {
      var n := |fs| - 1;
      MultiOfMultiSF(fs[..n]);
      assert MultiSFChannels(fs)[..n] == MultiSFChannels(fs[..n]);
      assert fs == fs[..n] + [fs[n]];
    }
  }

  lemma MultiOfChannels(asked: Concentrator)
    ensures MultiOf(ChannelsOf(asked)) == asked.multiSF
  {
    var multi := MultiSFChannels(asked.multiSF);
    var fsk := if asked.fsk != 0 then [FskChannel(asked.fsk)] else [];
    var std := if asked.loraStd.frequency != 0 then [StdChannel(asked.loraStd)] else [];
    MultiOfMultiSF(asked.multiSF);
    MultiOfAppend(multi, fsk);
    MultiOfAppend(multi + fsk, std);
    assert MultiOf(fsk) == [] && MultiOf(std) == [];
  }

  /** A channel is asked for because of one of the three parts of the configuration. */
  lemma OneOfChannels(asked: Concentrator, c: Channel)
    ensures c in ChannelsOf(asked) <==>
      || (exists i :: 0 <= i < |asked.multiSF| && c == MultiSFChannel(asked.multiSF[i]))
      || (asked.fsk != 0 && c == FskChannel(asked.fsk))
      || (asked.loraStd.frequency != 0 && c == StdChannel(asked.loraStd))
  {
    var multi := MultiSFChannels(asked.multiSF);
    var fsk := if asked.fsk != 0 then [FskChannel(asked.fsk)] else [];
    var std := if asked.loraStd.frequency != 0 then [StdChannel(asked.loraStd)] else [];
    assert ChannelsOf(asked) == multi + fsk + std;
    assert c in ChannelsOf(asked) <==> c in multi || c in fsk || c in std;
    assert c in multi <==> exists i :: 0 <= i < |asked.multiSF| && c == MultiSFChannel(asked.multiSF[i]) by {
      assert forall i :: 0 <= i < |asked.multiSF| ==> multi[i] == MultiSFChannel(asked.multiSF[i]);
    }
  }

  lemma MembersOfChannels(asked: Concentrator)
    ensures Asked(ChannelsOf(asked), asked)
    ensures HasStd(ChannelsOf(asked)) <==> asked.loraStd.frequency != 0
    ensures HasFsk(ChannelsOf(asked)) <==> asked.fsk != 0
  {
    forall c: Channel
      ensures c in ChannelsOf(asked) ==> (IsMulti(c) ==> c == MultiSFChannel(c.frequency))
      ensures c in ChannelsOf(asked) && IsStd(c) ==> c == StdChannel(asked.loraStd) && asked.loraStd.frequency != 0
      ensures c in ChannelsOf(asked) && c.modulation.Fsk? ==> asked.fsk != 0
    {
      OneOfChannels(asked, c);
    }
    OneOfChannels(asked, FskChannel(asked.fsk));
    OneOfChannels(asked, StdChannel(asked.loraStd));
    assert FskChannel(asked.fsk).modulation.Fsk? && IsStd(StdChannel(asked.loraStd));
  }

  // ---------- entering channels into slots ----------

  ghost predicate RadiosSet(conf: SX1301Conf, radios: Radios) {
    conf.radios == [RadioSlot(radios[0] != 0, radios[0]), RadioSlot(radios[1] != 0, radios[1])]
  }

  /** What holds after the channels of `done` have been entered. */
  ghost predicate Entered(conf: SX1301Conf, radios: Radios, done: seq<Channel>, asked: Concentrator) {
    && RadiosSet(conf, radios)
    && SlotsServe(conf.radios, conf.multiSF, MultiOf(done))
    && (conf.fsk <==> HasFsk(done))
    && (conf.loraStd.enable <==> HasStd(done))
    && (conf.loraStd.enable ==> StdServes(conf.radios, conf.loraStd, asked.loraStd))
  }

  /** Enters one channel on radio `r`; a ninth multi-SF channel finds no slot. */
  function Enter(conf: SX1301Conf, channelI: nat, r: nat, c: Channel): SX1301Conf
    requires |conf.radios| == 2 && |conf.multiSF| == SLOTS && r < 2
  {
    var offset := c.frequency - conf.radios[r].freq;
    if IsStd(c) then
      conf.(loraStd := LoraStdSlot(true, r, offset, c.modulation.bandwidth, c.modulation.spreadingFactors[0]))
    else if IsMulti(c) then
      if channelI < SLOTS then conf.(multiSF := conf.multiSF[channelI := MultiSFSlot(true, r, offset)]) else conf
    else if c.modulation.Fsk? then conf.(fsk := true)
    else conf
  }

  /** The offset to the assigned radio is within half the radio's bandwidth. */
  lemma AssignedOffset(conf: SX1301Conf, radios: Radios, c: Channel)
    requires RadiosSet(conf, radios) && InBand(c) && RadioFor(radios, c).Some?
    ensures WithinRadio(conf.radios, RadioFor(radios, c).value, c.frequency - radios[RadioFor(radios, c).value], ChannelBandwidth(c))
  {
    FitsWithinReach(radios[RadioFor(radios, c).value], c);
    FitsIsInterval(0, c);
  }

  lemma EnterMulti(conf: SX1301Conf, channelI: nat, r: nat, fs: seq<uint32>, c: Channel)
    requires |conf.radios| == 2 && r < 2 && channelI == |fs|
    requires SlotsServe(conf.radios, conf.multiSF, fs) && c == MultiSFChannel(c.frequency)
    requires WithinRadio(conf.radios, r, c.frequency - conf.radios[r].freq, 125000)
    ensures SlotsServe(conf.radios, Enter(conf, channelI, r, c).multiSF, fs + [c.frequency])
  {
    var slots := Enter(conf, channelI, r, c).multiSF;
    forall k | 0 <= k < SLOTS ensures SlotServes(conf.radios, slots[k], k, fs + [c.frequency]) {
      assert SlotServes(conf.radios, conf.multiSF[k], k, fs);
    }
  }

  lemma EnterKeeps(conf: SX1301Conf, radios: Radios, done: seq<Channel>, c: Channel, asked: Concentrator)
    requires Entered(conf, radios, done, asked)
    requires InBand(c) && Asked([c], asked) && RadioFor(radios, c).Some?
    ensures Entered(Enter(conf, |MultiOf(done)|, RadioFor(radios, c).value, c), radios, done + [c], asked)
  {
    assert (done + [c])[..|done|] == done;
    assert c in [c];
    AssignedOffset(conf, radios, c);
    assert HasStd(done + [c]) <==> HasStd(done) || IsStd(c);
    assert HasFsk(done + [c]) <==> HasFsk(done) || c.modulation.Fsk?;
    if IsMulti(c) {
      EnterMulti(conf, |MultiOf(done)|, RadioFor(radios, c).value, MultiOf(done), c);
    }
  }

  /** Some enabled radio is near enough to receive the FSK channel. */
  ghost predicate FskServed(radios: seq<RadioSlot>, frequency: uint32) {
    exists r <- radios :: r.enable && -400000 <= r.freq - frequency <= 400000
  }

  lemma FskWithinReach(conf: SX1301Conf, radios: Radios, cs: seq<Channel>, asked: Concentrator)
    requires multiset(cs) == multiset(ChannelsOf(asked)) && AllInBand(cs)
    requires RadiosSet(conf, radios) && AllAssigned(radios, cs)
    ensures asked.fsk != 0 ==> FskServed(conf.radios, asked.fsk)
  {
    if asked.fsk != 0 {
      var c := FskChannel(asked.fsk);
      OneOfChannels(asked, c);
      SameMembers(cs, ChannelsOf(asked));
      var k := RadioFor(radios, c).value;
      AssignedOffset(conf, radios, c);
      assert conf.radios[k] in conf.radios;
    }
  }

  lemma AllEnteredConserves(conf: SX1301Conf, radios: Radios, cs: seq<Channel>, asked: Concentrator)
    requires multiset(cs) == multiset(ChannelsOf(asked)) && AllInBand(cs) && Sorted(cs)
    requires Entered(conf, radios, cs, asked) && AllAssigned(radios, cs)
    ensures Conserves(conf, asked)
  {
    FskWithinReach(conf, radios, cs, asked);
    MultiServed(cs, asked);
    OthersServed(cs, asked);
    assert MultiSFConserved(conf, asked.multiSF);
  }

  lemma MultiServed(cs: seq<Channel>, asked: Concentrator)
    requires multiset(cs) == multiset(ChannelsOf(asked)) && AllInBand(cs) && Sorted(cs)
    ensures multiset(MultiOf(cs)) == multiset(asked.multiSF) && Ascending(MultiOf(cs))
  {
    var ds := ChannelsOf(asked);
    MultiOfChannels(asked);
    MembersOfChannels(asked);
    SameMembers(cs, ds);
    MultiAscending(cs);
    forall f: uint32 ensures multiset(MultiOf(cs))[f] == multiset(asked.multiSF)[f] {
      MultiCount(cs, f);
      MultiCount(ds, f);
    }
  }

  lemma OthersServed(cs: seq<Channel>, asked: Concentrator)
    requires multiset(cs) == multiset(ChannelsOf(asked))
    ensures HasStd(cs) <==> asked.loraStd.frequency != 0
    ensures HasFsk(cs) <==> asked.fsk != 0
  {
    var ds := ChannelsOf(asked);
    MembersOfChannels(asked);
    SameMembers(cs, ds);
    assert HasStd(cs) <==> HasStd(ds);
    assert HasFsk(cs) <==> HasFsk(ds);
  }

  // ---------- the code ----------

  method BuildChannels(asked: Concentrator) returns (channels: array<Channel>)
    ensures fresh(channels) && channels[..] == ChannelsOf(asked)
  {
    var list: seq<Channel> := [];
    for i := 0 to |asked.multiSF|
      invariant |list| == i && forall k :: 0 <= k < i ==> list[k] == MultiSFChannel(asked.multiSF[k])
    {
      list := list + [MultiSFChannel(asked.multiSF[i])];
    }
    if asked.fsk != 0 {
      list := list + [FskChannel(asked.fsk)];
    }
    if asked.loraStd.frequency != 0 {
      list := list + [StdChannel(asked.loraStd)];
    }
    channels := new Channel[|list|](i requires 0 <= i < |list| => list[i]);
  }

  /** Some two radio frequencies serve every channel of the concentrator. */
  ghost predicate Servable(asked: Concentrator) {
    exists radios: Radios :: AllAssigned(radios, ChannelsOf(asked))
  }

  /** Plans one concentrator. It fails only when no two radios can serve the channels, and
      never because a channel finds no radio after a successful placement. */
  method ConfigureConcentrator(asked: Concentrator) returns (result: Result<SX1301Conf>)
    requires AllInBand(ChannelsOf(asked))
    ensures result.Ok? ==> Conserves(result.value, asked)
    ensures result.Err? ==> result.error.NoRadioFrequencies?
    ensures result.Ok? <==> Servable(asked)
  {
    var channels := BuildChannels(asked);
    var plan := GetRadioFrequencies(channels);
    PlacedIffPossible(ChannelsOf(asked), plan);
    if plan.DoesNotFit? {
      return Err(NoRadioFrequencies(plan.frequency));
    }
    PlacedCoversAll(channels[..], plan);
    MembersOfChannels(asked);
    SameMembers(channels[..], ChannelsOf(asked));
    var conf := SetRadios(plan.radios);
    result := EnterChannels(conf, plan.radios, channels[..], asked);
    AllEnteredConserves(result.value, plan.radios, channels[..], asked);
  }

  method SetRadios(radios: Radios) returns (conf: SX1301Conf)
    ensures RadiosSet(conf, radios) && conf == EMPTY_CONF.(radios := conf.radios)
  {
    conf := EMPTY_CONF;
    for i := 0 to 2
      invariant |conf.radios| == 2 && conf == EMPTY_CONF.(radios := conf.radios)
      invariant forall k :: 0 <= k < i ==> conf.radios[k] == RadioSlot(radios[k] != 0, radios[k])
    {
      conf := conf.(radios := conf.radios[i := RadioSlot(radios[i] != 0, radios[i])]);
    }
  }

  method EnterChannels(blank: SX1301Conf, radios: Radios, channels: seq<Channel>, ghost asked: Concentrator)
    returns (result: Result<SX1301Conf>)
    requires RadiosSet(blank, radios) && blank == EMPTY_CONF.(radios := blank.radios)
    requires AllInBand(channels) && Asked(channels, asked) && AllAssigned(radios, channels)
    ensures result.Ok? && Entered(result.value, radios, channels, asked)
  {
    var conf, channelI := blank, 0;
    for n := 0 to |channels|
      invariant channelI == |MultiOf(channels[..n])|
      invariant Entered(conf, radios, channels[..n], asked)
    {
      var c := channels[n];
      assert channels[..n + 1] == channels[..n] + [c] && channels[..n + 1][..n] == channels[..n];
      var r := GetRadioForChannel(radios, c);
      if r.None? {
        return Err(NoRadioForChannel);
      }
      EnterKeeps(conf, radios, channels[..n], c, asked);
      conf := Enter(conf, channelI, r.value, c);
      if IsMulti(c) {
        channelI := channelI + 1;
      }
    }
    assert channels[..|channels|] == channels;
    return Ok(conf);
  }

  /** The concentrators in order; the first that cannot be planned ends the work. */
  method GetRouterConfig(concentrators: seq<Concentrator>) returns (result: Result<seq<SX1301Conf>>)
    requires forall asked <- concentrators :: AllInBand(ChannelsOf(asked))
    ensures result.Ok? ==> |result.value| == |concentrators|
    ensures result.Ok? ==> forall i :: 0 <= i < |concentrators| ==> Conserves(result.value[i], concentrators[i])
    ensures result.Ok? <==> forall asked <- concentrators :: Servable(asked)
  {
    var confs: seq<SX1301Conf> := [];
    for i := 0 to |concentrators|
      invariant |confs| == i
      invariant forall k :: 0 <= k < i ==> Conserves(confs[k], concentrators[k]) && Servable(concentrators[k])
    {
      var conf := ConfigureConcentrator(concentrators[i]);
      if conf.Err? {
        return Err(conf.error);
      }
      confs := confs + [conf.value];
    }
    return Ok(confs);
  }
}
