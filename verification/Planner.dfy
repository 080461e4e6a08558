/** The SX1301 radio planner: two radio centre frequencies are placed so that every
    channel lies within the bandwidth of one of them.

    `Fits` is the test `GetRadioForChannel` performs, wrap-around included. The greedy
    placement of `GetRadioFrequencies` is specified by `Scan`; `Describes` says what the
    placement means without mentioning any order of the channels. */
module Planner {
  import opened Words
  import opened Stabbing

  datatype Modulation =
    | Lora(bandwidth: uint32, spreadingFactors: seq<uint32>)
    | Fsk(bandwidth: uint32, bitrate: uint32)
    | NoModulation

  datatype Channel = Channel(frequency: uint32, modulation: Modulation)

  /** Two centre frequencies; zero means that the radio is not used. */
  type Radios = r: seq<uint32> | |r| == 2 witness [0, 0]

  datatype Plan =
    | Placed(radios: Radios)
    | DoesNotFit(radios: Radios, frequency: uint32)

  function ChannelBandwidth(c: Channel): uint32 {
    match c.modulation
    case Lora(bandwidth, _) => bandwidth
    case Fsk(bandwidth, _) => bandwidth
    case NoModulation => 0
  }

  function RadioBandwidth(c: Channel): uint32 {
    match ChannelBandwidth(c)
    case 500000 => 1100000
    case 250000 => 1000000
    case _ => 925000
  }

  function ChannelMin(c: Channel): uint32 { Sub(c.frequency, ChannelBandwidth(c) / 2) }

  function ChannelMax(c: Channel): uint32 { Add(c.frequency, ChannelBandwidth(c) / 2) }

  /** The centre of a radio that has the channel exactly at its left side. */
  function MinRadioCenter(c: Channel): uint32 { Add(ChannelMin(c), RadioBandwidth(c) / 2) }

  /** The channel lies within the bandwidth of a radio tuned to `f`. */
  predicate Fits(f: uint32, c: Channel) {
    ChannelMin(c) >= Sub(f, RadioBandwidth(c) / 2) && ChannelMax(c) <= Add(f, RadioBandwidth(c) / 2)
  }

  /** Real channels: no wider than their radio, and away from both ends of the 32-bit range. */
  predicate InBand(c: Channel) {
    ChannelBandwidth(c) <= RadioBandwidth(c) && 1100000 <= c.frequency <= TWO_32 - 1100000
  }

  predicate AllInBand(cs: seq<Channel>) { forall c <- cs :: InBand(c) }

  /** The lowest centre from which a radio still reaches the channel's upper edge. */
  function LowestCenter(c: Channel): int {
    c.frequency + ChannelBandwidth(c) / 2 - RadioBandwidth(c) / 2
  }

  /** For every radio frequency whatsoever, also those where the 32-bit bounds wrap, the
      test performed is membership of one interval; in particular an unset radio fits nothing. */
  lemma FitsIsInterval(f: uint32, c: Channel)
    requires InBand(c)
    ensures Fits(f, c) <==> LowestCenter(c) <= f <= MinRadioCenter(c)
    ensures 0 < LowestCenter(c) <= MinRadioCenter(c)
    ensures !Fits(0, c)
  {
    assert MinRadioCenter(c) == c.frequency - ChannelBandwidth(c) / 2 + RadioBandwidth(c) / 2;
  }

  /** How far a radio's centre may be from a channel of the given width: half of 1.1 MHz, 1 MHz or
      925 kHz less half the width. */
  function Reach(width: uint32): int {
    match width
    case 500000 => 300000
    case 250000 => 375000
    case 125000 => 400000
    case _ => 462500 - width / 2
  }

  /** In numbers: which radios take a channel, for every modulation, frequency and width. */
  lemma FitsInNumbers(f: uint32, frequency: uint32, width: uint32, factors: seq<uint32>, bitrate: uint32)
    requires 1100000 <= frequency <= 0x1_0000_0000 - 1100000 && width <= 925000
    ensures Fits(f, Channel(frequency, Lora(width, factors))) <==> -Reach(width) <= f - frequency <= Reach(width)
    ensures Fits(f, Channel(frequency, Fsk(width, bitrate))) <==> -Reach(width) <= f - frequency <= Reach(width)
    ensures Fits(f, Channel(frequency, NoModulation)) <==> -462500 <= f - frequency <= 462500
  {
  }

  lemma FitsWithinReach(f: uint32, c: Channel)
    requires InBand(c)
    ensures Fits(f, c) <==> -Reach(ChannelBandwidth(c)) <= f - c.frequency <= Reach(ChannelBandwidth(c))
  {
  }

  /** A channel is in band when it is at most 925 kHz wide and 1.1 MHz away from both ends. */
  lemma InBandInNumbers(frequency: uint32, width: uint32, factors: seq<uint32>, bitrate: uint32)
    ensures var inBand := width <= 925000 && 1100000 <= frequency <= 0x1_0000_0000 - 1100000;
      && (InBand(Channel(frequency, Lora(width, factors))) <==> inBand)
      && (InBand(Channel(frequency, Fsk(width, bitrate))) <==> inBand)
  {
  }

  // ---------- the greedy scan ----------

  /** One turn of the planner's outer loop. */
  function Place(radios: Radios, c: Channel): Plan {
    if radios[0] == 0 then Placed([MinRadioCenter(c), radios[1]])
    else if ChannelMax(c) <= Add(radios[0], RadioBandwidth(c) / 2) then Placed(radios)
    else if radios[1] == 0 then Placed([radios[0], MinRadioCenter(c)])
    else if ChannelMax(c) <= Add(radios[1], RadioBandwidth(c) / 2) then Placed(radios)
    else DoesNotFit(radios, c.frequency)
  }

  /** The planner's state after the channels of `cs`; a channel that does not fit ends the scan. */
  function Scan(cs: seq<Channel>): Plan {
    if cs == [] then Placed([0, 0])
    else
      var before := Scan(cs[..|cs| - 1]);
      if before.DoesNotFit? then before else Place(before.radios, cs[|cs| - 1])
  }

  predicate Sorted(cs: seq<Channel>) {
    forall i, j :: 0 <= i < j < |cs| ==> MinRadioCenter(cs[i]) <= MinRadioCenter(cs[j])
  }

  // ---------- what a plan is ----------

  /** The centres of the radios that can take the channel. */
  function SpanOf(c: Channel): Span { Span(LowestCenter(c), MinRadioCenter(c)) }

  ghost function Spans(cs: seq<Channel>): set<Span> { set c <- cs :: SpanOf(c) }

  function PointsOf(plan: Plan): Points { Points(plan.radios[0], plan.radios[1], plan.Placed?) }

  /** Radio frequencies far enough from 2^32 for their upper bound not to wrap. */
  predicate Reachable(radios: Radios) { radios[0] < TWO_32 - 550000 && radios[1] < TWO_32 - 550000 }

  lemma PlaceVisits(radios: Radios, c: Channel)
    requires InBand(c)
    requires Reachable(radios)
    ensures PointsOf(Place(radios, c)) == Visit(PointsOf(Placed(radios)), SpanOf(c))
    ensures Reachable(Place(radios, c).radios)
  {
  }

  lemma SpansValid(cs: seq<Channel>)
    requires AllInBand(cs)
    ensures AllValid(Spans(cs))
  {
    forall c | c in cs ensures SpanOf(c).Valid() { FitsIsInterval(0, c); }
  }

  lemma SameMembers(cs: seq<Channel>, ds: seq<Channel>)
    requires multiset(cs) == multiset(ds)
    ensures forall c: Channel :: c in cs <==> c in ds
  {
    forall c: Channel ensures c in cs <==> c in ds {
      assert c in cs <==> c in multiset(cs);
      assert c in ds <==> c in multiset(ds);
    }
  }

  lemma SameSpans(cs: seq<Channel>, ds: seq<Channel>)
    requires multiset(cs) == multiset(ds)
    ensures Spans(cs) == Spans(ds) && (AllInBand(cs) <==> AllInBand(ds))
  {
    SameMembers(cs, ds);
    SubSpans(cs, ds);
    SubSpans(ds, cs);
  }

  lemma SubSpans(cs: seq<Channel>, ds: seq<Channel>)
    requires forall c <- cs :: c in ds
    ensures Spans(cs) <= Spans(ds)
  {
  }

  /** The scan of a sorted list computes the described plan. */
  lemma {:induction false} ScanDescribes(cs: seq<Channel>)
    requires AllInBand(cs) && Sorted(cs)
    ensures Describes(Spans(cs), PointsOf(Scan(cs))) && Reachable(Scan(cs).radios)
  {
    if cs != [] {
      var n := |cs| - 1;
      var init, c := cs[..n], cs[n];
      assert cs == init + [c];
      SortedInit(init, c);
      ScanDescribes(init);
      ScanExtends(init, c);
    }
  }

  lemma SortedInit(init: seq<Channel>, c: Channel)
    requires AllInBand(init + [c]) && Sorted(init + [c])
    ensures AllInBand(init) && Sorted(init) && InBand(c)
    ensures forall x <- init :: MinRadioCenter(x) <= MinRadioCenter(c)
  {
    var cs := init + [c];
    assert cs[|init|] == c;
    assert forall i :: 0 <= i < |init| ==> cs[i] == init[i];
  }

  lemma ScanExtends(init: seq<Channel>, c: Channel)
    requires AllInBand(init) && InBand(c)
    requires forall x <- init :: MinRadioCenter(x) <= MinRadioCenter(c)
    requires Describes(Spans(init), PointsOf(Scan(init))) && Reachable(Scan(init).radios)
    ensures Describes(Spans(init + [c]), PointsOf(Scan(init + [c]))) && Reachable(Scan(init + [c]).radios)
  {
    var cs := init + [c];
    assert cs[..|cs| - 1] == init;
    PlaceVisits(Scan(init).radios, c);
    SpansValid(cs);
    SpansValid(init);
    assert Spans(cs) == Spans(init) + {SpanOf(c)};
    VisitDescribes(Spans(init), PointsOf(Scan(init)), SpanOf(c));
  }

  /** The plan the channels call for; their order plays no part. */
  ghost predicate IsPlanFor(cs: seq<Channel>, plan: Plan) { Describes(Spans(cs), PointsOf(plan)) }

  // ---------- main results ----------

  /** The radio `GetRadioForChannel` assigns. */
  function RadioFor(radios: Radios, c: Channel): Option<nat> {
    if Fits(radios[0], c) then Some(0) else if Fits(radios[1], c) then Some(1) else None
  }

  ghost predicate AllAssigned(radios: Radios, cs: seq<Channel>) {
    forall c <- cs :: RadioFor(radios, c).Some?
  }

  /** Soundness: a successful plan assigns every channel to a radio that is in use. */
  lemma PlacedCoversAll(cs: seq<Channel>, plan: Plan)
    requires AllInBand(cs) && IsPlanFor(cs, plan) && plan.Placed?
    ensures AllAssigned(plan.radios, cs)
    ensures forall c <- cs :: plan.radios[RadioFor(plan.radios, c).value] != 0
  {
    SpansValid(cs);
    forall c | c in cs
      ensures RadioFor(plan.radios, c).Some? && plan.radios[RadioFor(plan.radios, c).value] != 0
    {
      PointsStab(Spans(cs), PointsOf(plan), SpanOf(c));
      FitsIsInterval(plan.radios[0], c);
      FitsIsInterval(plan.radios[1], c);
    }
  }

  /** No single radio, at any frequency, takes two of the three channels. */
  ghost predicate NoRadioSharesTwo(a: Channel, b: Channel, c: Channel) {
    forall f: uint32 :: !(Fits(f, a) && Fits(f, b)) && !(Fits(f, a) && Fits(f, c)) && !(Fits(f, b) && Fits(f, c))
  }

  /** Completeness: a failed plan exhibits three channels that need three radios. */
  lemma FailureExhibitsThree(cs: seq<Channel>, plan: Plan) returns (a: Channel, b: Channel, c: Channel)
    requires AllInBand(cs) && IsPlanFor(cs, plan) && plan.DoesNotFit?
    ensures a in cs && b in cs && c in cs && NoRadioSharesTwo(a, b, c)
  {
    SpansValid(cs);
    var x, y, z := FailureWitness(Spans(cs), PointsOf(plan));
    a :| a in cs && SpanOf(a) == x;
    b :| b in cs && SpanOf(b) == y;
    c :| c in cs && SpanOf(c) == z;
    forall f: uint32
      ensures !(Fits(f, a) && Fits(f, b)) && !(Fits(f, a) && Fits(f, c)) && !(Fits(f, b) && Fits(f, c))
    {
      FitsIsInterval(f, a);
      FitsIsInterval(f, b);
      FitsIsInterval(f, c);
      assert !(x.Has(f) && y.Has(f)) && !(x.Has(f) && z.Has(f)) && !(y.Has(f) && z.Has(f));
    }
  }

  /** The planner succeeds exactly when some two centre frequencies serve every channel. */
  lemma PlacedIffPossible(cs: seq<Channel>, plan: Plan)
    requires AllInBand(cs) && IsPlanFor(cs, plan)
    ensures plan.Placed? <==> exists radios: Radios :: AllAssigned(radios, cs)
  {
    if plan.Placed? {
      PlacedCoversAll(cs, plan);
    } else {
      var a, b, c := FailureExhibitsThree(cs, plan);
      forall radios: Radios ensures !AllAssigned(radios, cs) {
        var f, g := radios[0], radios[1];
        assert !(Fits(f, a) && Fits(f, b)) && !(Fits(f, a) && Fits(f, c)) && !(Fits(f, b) && Fits(f, c));
        assert !(Fits(g, a) && Fits(g, b)) && !(Fits(g, a) && Fits(g, c)) && !(Fits(g, b) && Fits(g, c));
      }
    }
  }

  ghost predicate OneRadioServes(f: uint32, cs: seq<Channel>) { forall c <- cs :: Fits(f, c) }

  /** Minimality: the second radio is left unset exactly when one radio serves every channel,
      the first exactly when there are no channels; when both are set the second is higher. */
  lemma SecondRadioOnlyWhenNeeded(cs: seq<Channel>, plan: Plan)
    requires AllInBand(cs) && IsPlanFor(cs, plan)
    ensures plan.radios[1] == 0 <==> exists f: uint32 :: OneRadioServes(f, cs)
    ensures plan.radios[1] != 0 ==> plan.radios[1] > plan.radios[0] > 0
    ensures plan.radios[0] == 0 <==> cs == []
  {
    SpansValid(cs);
    OnePointEnough(Spans(cs), PointsOf(plan));
    if cs == [] {
      assert OneRadioServes(0, cs);
    } else {
      assert SpanOf(cs[0]) in Spans(cs);
    }
    if cs != [] && plan.radios[1] == 0 {
      forall c | c in cs ensures Fits(plan.radios[0], c) {
        assert SpanOf(c) in Spans(cs) && SpanOf(c).lo > 0;
        FitsIsInterval(plan.radios[0], c);
      }
      assert OneRadioServes(plan.radios[0], cs);
    }
    forall f: uint32 | OneRadioServes(f, cs) ensures plan.radios[1] == 0 {
      forall c | c in cs ensures SpanOf(c).Has(f) { FitsIsInterval(f, c); }
      assert StabsAll(f, Spans(cs));
    }
  }

  /** Order independence: however the channels are permuted, and whatever order an unstable
      sort leaves equal channels in, the radios and the outcome are the same. */
  lemma PlanIgnoresOrder(cs: seq<Channel>, ds: seq<Channel>, plan: Plan, other: Plan)
    requires multiset(cs) == multiset(ds)
    requires IsPlanFor(cs, plan) && IsPlanFor(ds, other)
    ensures plan.radios == other.radios && (plan.Placed? <==> other.Placed?)
  {
    SameSpans(cs, ds);
    DescriptionUnique(Spans(cs), PointsOf(plan), PointsOf(other));
    SamePoints(plan, other);
  }

  lemma SamePoints(plan: Plan, other: Plan)
    requires PointsOf(plan) == PointsOf(other)
    ensures plan.radios == other.radios && (plan.Placed? <==> other.Placed?)
  {
    assert plan.radios == [plan.radios[0], plan.radios[1]];
    assert other.radios == [other.radios[0], other.radios[1]];
  }

  /** The channel a failure names is one that neither of the radios placed so far takes. */
  lemma {:induction false} FailureNamesChannel(cs: seq<Channel>)
    requires AllInBand(cs) && Sorted(cs) && Scan(cs).DoesNotFit?
    ensures exists c <- cs :: c.frequency == Scan(cs).frequency && RadioFor(Scan(cs).radios, c).None?
  {
    var init, c := cs[..|cs| - 1], cs[|cs| - 1];
    assert cs == init + [c];
    SortedInit(init, c);
    if Scan(init).DoesNotFit? {
      FailureNamesChannel(init);
    } else {
      ScanDescribes(init);
      FitsIsInterval(Scan(init).radios[0], c);
      FitsIsInterval(Scan(init).radios[1], c);
    }
  }

  /** Once a channel did not fit, the rest of the list changes nothing. */
  lemma {:induction false} FailureIsFinal(cs: seq<Channel>, n: nat)
    requires n <= |cs| && Scan(cs[..n]).DoesNotFit?
    ensures Scan(cs) == Scan(cs[..n])
    decreases |cs|
  {
    if n == |cs| {
      assert cs[..n] == cs;
    } else {
      var init := cs[..|cs| - 1];
      assert init[..n] == cs[..n];
      FailureIsFinal(init, n);
    }
  }

  // ---------- the code ----------

  predicate Less(cs: array<Channel>, i: nat, j: nat)
    requires i < cs.Length && j < cs.Length
    reads cs
  {
    MinRadioCenter(cs[i]) < MinRadioCenter(cs[j])
  }

  method Swap(cs: array<Channel>, i: nat, j: nat)
    requires i < cs.Length && j < cs.Length
    modifies cs
    ensures cs[..] == old(cs[..])[i := old(cs[j])][j := old(cs[i])]
    ensures multiset(cs[..]) == old(multiset(cs[..]))
  {
    cs[i], cs[j] := cs[j], cs[i];
  }

  /** Sorted up to index `i`, except perhaps for the channel at `j` and those before it. */
  predicate SortedExcept(cs: seq<Channel>, i: nat, j: nat)
    requires i < |cs|
  {
    forall p, q :: 0 <= p < q <= i && q != j ==> MinRadioCenter(cs[p]) <= MinRadioCenter(cs[q])
  }

  lemma SwapKeepsSorted(cs: seq<Channel>, i: nat, j: nat)
    requires 0 < j <= i < |cs| && SortedExcept(cs, i, j)
    requires MinRadioCenter(cs[j]) < MinRadioCenter(cs[j - 1])
    ensures SortedExcept(cs[j := cs[j - 1]][j - 1 := cs[j]], i, j - 1)
  {
  }

  lemma InsertedIsSorted(cs: seq<Channel>, i: nat, j: nat)
    requires j <= i < |cs| && SortedExcept(cs, i, j)
    requires j > 0 ==> MinRadioCenter(cs[j - 1]) <= MinRadioCenter(cs[j])
    ensures Sorted(cs[..i + 1])
  {
    forall p, q | 0 <= p < q <= i ensures MinRadioCenter(cs[p]) <= MinRadioCenter(cs[q]) {
      if q == j && p < j - 1 {
        assert MinRadioCenter(cs[p]) <= MinRadioCenter(cs[j - 1]);
      }
    }
  }

  /** An in-place sort by left-side radio centre, through `Less` and `Swap` only. */
  method Sort(cs: array<Channel>)
    modifies cs
    ensures Sorted(cs[..])
    ensures multiset(cs[..]) == old(multiset(cs[..]))
  {
    var i := 0;
    while i < cs.Length
      invariant 0 <= i <= cs.Length && Sorted(cs[..i])
      invariant multiset(cs[..]) == old(multiset(cs[..]))
    {
      var j := i;
      assert forall p :: 0 <= p < i ==> cs[..][p] == cs[..i][p];
      while j > 0 && Less(cs, j, j - 1)
        invariant 0 <= j <= i && SortedExcept(cs[..], i, j)
        invariant multiset(cs[..]) == old(multiset(cs[..]))
      {
        SwapKeepsSorted(cs[..], i, j);
        Swap(cs, j, j - 1);
        j := j - 1;
      }
      InsertedIsSorted(cs[..], i, j);
      i := i + 1;
      assert cs[..][..i] == cs[..i];
    }
    assert cs[..i] == cs[..];
  }

  /** The planner's inner loop: finds or sets a radio for one channel. */
  method FindRadio(radios: array<uint32>, c: Channel) returns (fits: bool)
    requires radios.Length == 2
    modifies radios
    ensures fits ==> Place(old(radios[..]), c) == Placed(radios[..])
    ensures !fits ==> Place(old(radios[..]), c) == DoesNotFit(radios[..], c.frequency)
  {
    var i := 0;
    while true
      invariant 0 <= i < 2 && radios[..] == old(radios[..])
      invariant forall k :: 0 <= k < i ==>
        radios[k] != 0 && ChannelMax(c) > Add(radios[k], RadioBandwidth(c) / 2)
      decreases 2 - i
    {
      if radios[i] == 0 {
        radios[i] := MinRadioCenter(c);
        return true;
      }
      if ChannelMax(c) <= Add(radios[i], RadioBandwidth(c) / 2) {
        return true;
      }
      if i == radios.Length - 1 {
        return false;
      }
      i := i + 1;
    }
  }

  /** Sorts the channels in place and places the radios. */
  method GetRadioFrequencies(channels: array<Channel>) returns (plan: Plan)
    requires AllInBand(channels[..])
    modifies channels
    ensures multiset(channels[..]) == old(multiset(channels[..])) && Sorted(channels[..])
    ensures AllInBand(channels[..])
    ensures plan == Scan(channels[..])
    ensures IsPlanFor(old(channels[..]), plan) && IsPlanFor(channels[..], plan)
  {
    Sort(channels);
    plan := PlaceRadios(channels[..]);
    SortedScanIsPlan(channels[..], old(channels[..]));
  }

  lemma SortedScanIsPlan(cs: seq<Channel>, was: seq<Channel>)
    requires AllInBand(was) && multiset(cs) == multiset(was) && Sorted(cs)
    ensures AllInBand(cs) && IsPlanFor(cs, Scan(cs)) && IsPlanFor(was, Scan(cs))
  {
    SameSpans(cs, was);
    ScanDescribes(cs);
  }

  /** The planner's outer loop, over the sorted channels. */
  method PlaceRadios(channels: seq<Channel>) returns (plan: Plan)
    ensures plan == Scan(channels)
  {
    var radios := new uint32[2](_ => 0);
    for n := 0 to |channels|
      invariant Scan(channels[..n]) == Placed(radios[..])
    {
      assert channels[..n + 1][..n] == channels[..n];
      var fits := FindRadio(radios, channels[n]);
      if !fits {
        FailureIsFinal(channels, n + 1);
        return DoesNotFit(radios[..], channels[n].frequency);
      }
    }
    assert channels[..|channels|] == channels;
    return Placed(radios[..]);
  }

  /** The first radio whose bandwidth contains the channel. */
  method GetRadioForChannel(radios: Radios, c: Channel) returns (r: Option<nat>)
    ensures r == RadioFor(radios, c)
    ensures r.Some? ==> r.value < 2 && Fits(radios[r.value], c) && forall k :: 0 <= k < r.value ==> !Fits(radios[k], c)
    ensures r.None? ==> !Fits(radios[0], c) && !Fits(radios[1], c)
  {
    for i := 0 to 2
      invariant forall k :: 0 <= k < i ==> !Fits(radios[k], c)
    {
      if Fits(radios[i], c) {
        return Some(i);
      }
    }
    return None;
  }
}
