/** The gateway store kept in a YAML file: an append-only list of local ids with private keys,
    and three in-memory indexes of the gateways derived from it. A registry sync looks a
    gateway up, asks the registry, and writes a fuller gateway back later. */
module Store {
  import opened Words
  import opened Frames

  type PrivateKey = int

  type ThingsIxId = int

  /** How identifiers follow from a key; the cryptography is left open. */
  datatype Derivation = Derivation(thingsIx: PrivateKey -> ThingsIxId, network: ThingsIxId -> Eui) {
    function NetworkOf(key: PrivateKey): Eui { network(thingsIx(key)) }
  }

  /** `onboarding` holds owner, version and details once the registry supplied them. */
  datatype Gateway = Gateway(
    localId: Eui, key: PrivateKey, thingsIxId: ThingsIxId, networkId: Eui, onboarding: Option<string>)

  datatype Entry = Entry(localId: Eui, key: PrivateKey)

  /** The file and the indexes; `lookedUp` are gateways that pending syncs obtained earlier. */
  datatype State = State(
    file: seq<Entry>,
    byLocalId: map<Eui, Gateway>,
    byNetId: map<Eui, Gateway>,
    byThingsIxId: map<ThingsIxId, Gateway>,
    lookedUp: set<Gateway>)

  function Derive(d: Derivation, e: Entry, onboarding: Option<string>): Gateway {
    Gateway(e.localId, e.key, d.thingsIx(e.key), d.NetworkOf(e.key), onboarding)
  }

  function Put(s: State, g: Gateway): State {
    s.(byLocalId := s.byLocalId[g.localId := g],
       byNetId := s.byNetId[g.networkId := g],
       byThingsIxId := s.byThingsIxId[g.thingsIxId := g])
  }

  /** Indexing the entries of a file in order; later entries overwrite earlier ones. */
  function Load(d: Derivation, file: seq<Entry>): State {
    if file == [] then State([], map[], map[], map[], {})
    else
      var init, e := file[..|file| - 1], file[|file| - 1];
      Put(Load(d, init), Derive(d, e, None)).(file := file)
  }

  /** What the registry's answer makes of a gateway that was looked up: a fuller one, unless its
      constructor fails, which the present one never does. */
  datatype Answer = Onboarded(details: string) | NotOnboarded

  /** `writes` tells whether the entry could be appended to the file. */
  datatype Action =
    | Add(entry: Entry, writes: bool)
    | LookUp(localId: Eui)
    | WriteBack(gateway: Gateway, answer: Answer)

  /** The gateway that is written back: a fuller one, or the one looked up when no fuller one can
      be made of the answer. */
  function Synced(d: Derivation, g: Gateway, answer: Answer): Gateway {
    match answer
    case Onboarded(details) => Derive(d, Entry(g.localId, g.key), Some(details))
    case NotOnboarded => g
  }

  predicate Enabled(s: State, a: Action) { a.WriteBack? ==> a.gateway in s.lookedUp }

  predicate Accepts(s: State, e: Entry) { e.localId !in s.byLocalId }

  function Apply(d: Derivation, s: State, a: Action): State {
    match a
    case Add(e, writes) =>
      if !Accepts(s, e) || !writes then s
      else Put(s, Derive(d, e, None)).(file := s.file + [e])
    case LookUp(id) =>
      if id in s.byLocalId then s.(lookedUp := s.lookedUp + {s.byLocalId[id]}) else s
    case WriteBack(g, answer) => Put(s, Synced(d, g, answer))
  }

  predicate Allowed(d: Derivation, s: State, actions: seq<Action>)
    decreases |actions|
  {
    actions == [] || (Enabled(s, actions[0]) && Allowed(d, Apply(d, s, actions[0]), actions[1..]))
  }

  function Run(d: Derivation, s: State, actions: seq<Action>): State
    requires Allowed(d, s, actions)
    decreases |actions|
  {
    if actions == [] then s else Run(d, Apply(d, s, actions[0]), actions[1..])
  }

  // ---------- agreement of the indexes ----------

  /** The three maps index exactly the same gateways. */
  ghost predicate Agree(s: State) {
    && (forall l <- s.byLocalId ::
      var g := s.byLocalId[l];
      g.localId == l
      && g.networkId in s.byNetId && s.byNetId[g.networkId] == g
      && g.thingsIxId in s.byThingsIxId && s.byThingsIxId[g.thingsIxId] == g)
    && (forall n <- s.byNetId ::
      var g := s.byNetId[n];
      g.networkId == n && g.localId in s.byLocalId && s.byLocalId[g.localId] == g)
    && (forall t <- s.byThingsIxId ::
      var g := s.byThingsIxId[t];
      g.thingsIxId == t && g.localId in s.byLocalId && s.byLocalId[g.localId] == g)
  }

  predicate DistinctLocalIds(file: seq<Entry>) {
    forall i, j :: 0 <= i < j < |file| ==> file[i].localId != file[j].localId
  }

  predicate DistinctNetworkIds(d: Derivation, file: seq<Entry>) {
    forall i, j :: 0 <= i < j < |file| ==> d.NetworkOf(file[i].key) != d.NetworkOf(file[j].key)
  }

  /** The gateway is a derivation of a file entry. */
  ghost predicate FromFile(d: Derivation, file: seq<Entry>, g: Gateway) {
    Entry(g.localId, g.key) in file && g == Derive(d, Entry(g.localId, g.key), g.onboarding)
  }

  /** The local-id index holds the file's entries, and the others hold nothing else. */
  ghost predicate Indexed(d: Derivation, s: State) {
    && DistinctLocalIds(s.file)
    && (forall e <- s.file :: e.localId in s.byLocalId)
    && (forall l <- s.byLocalId :: s.byLocalId[l].localId == l && FromFile(d, s.file, s.byLocalId[l]))
    && (forall n <- s.byNetId :: s.byNetId[n].networkId == n && FromFile(d, s.file, s.byNetId[n]))
    && (forall t <- s.byThingsIxId :: s.byThingsIxId[t].thingsIxId == t && FromFile(d, s.file, s.byThingsIxId[t]))
    && (forall g <- s.lookedUp :: FromFile(d, s.file, g))
  }

  lemma PutIndexed(d: Derivation, s: State, g: Gateway)
    requires Indexed(d, s) && FromFile(d, s.file, g)
    ensures Indexed(d, Put(s, g))
  {
  }

  /** Entries with the same local id, or with the same network id, are the same entry. */
  lemma SameEntry(d: Derivation, file: seq<Entry>, a: Entry, b: Entry)
    requires a in file && b in file
    ensures DistinctLocalIds(file) && a.localId == b.localId ==> a == b
    ensures DistinctNetworkIds(d, file) && d.NetworkOf(a.key) == d.NetworkOf(b.key) ==> a == b
  {
    var i :| 0 <= i < |file| && file[i] == a;
    var j :| 0 <= j < |file| && file[j] == b;
  }

  lemma PutAgrees(d: Derivation, s: State, g: Gateway)
    requires Indexed(d, s) && FromFile(d, s.file, g) && DistinctNetworkIds(d, s.file) && Agree(s)
    ensures Agree(Put(s, g))
  {
    var e := Entry(g.localId, g.key);
    forall h: Gateway | FromFile(d, s.file, h)
      ensures h.localId == g.localId <==> h.networkId == g.networkId
      ensures h.localId == g.localId <==> h.thingsIxId == g.thingsIxId
    {
      SameEntry(d, s.file, e, Entry(h.localId, h.key));
    }
  }

  function Grown(d: Derivation, s: State, e: Entry): State {
    Put(s, Derive(d, e, None)).(file := s.file + [e])
  }

  lemma GrowDistinct(d: Derivation, s: State, e: Entry)
    requires Indexed(d, s) && Accepts(s, e)
    ensures DistinctLocalIds(s.file + [e])
  {
    var file := s.file + [e];
    forall i, j | 0 <= i < j < |file| ensures file[i].localId != file[j].localId {
      assert file[i] in s.file;
    }
  }

  lemma FromGrownFile(d: Derivation, file: seq<Entry>, e: Entry, g: Gateway)
    requires FromFile(d, file, g)
    ensures FromFile(d, file + [e], g)
  {
  }

  lemma GrowIndexed(d: Derivation, s: State, e: Entry)
    requires Indexed(d, s) && Accepts(s, e)
    ensures Indexed(d, Grown(d, s, e))
  {
    GrowDistinct(d, s, e);
    var grown := s.(file := s.file + [e], byLocalId := s.byLocalId[e.localId := Derive(d, e, None)]);
    assert e in grown.file;
    forall g: Gateway | FromFile(d, s.file, g) ensures FromFile(d, grown.file, g) {
      FromGrownFile(d, s.file, e, g);
    }
    assert FromFile(d, grown.file, Derive(d, e, None));
  }

  /** A stored gateway differs from one with a new local id and network id in all identifiers. */
  lemma GrowAgrees(d: Derivation, s: State, e: Entry)
    requires Indexed(d, s) && Accepts(s, e) && Agree(s)
    requires forall x <- s.file :: d.NetworkOf(x.key) != d.NetworkOf(e.key)
    ensures Agree(Grown(d, s, e))
  {
    var g := Derive(d, e, None);
    forall h: Gateway | FromFile(d, s.file, h)
      ensures h.localId != g.localId && h.networkId != g.networkId && h.thingsIxId != g.thingsIxId
    {
      var x := Entry(h.localId, h.key);
      assert x.localId in s.byLocalId;
    }
  }

  lemma PrefixDistinct(d: Derivation, file: seq<Entry>, e: Entry)
    ensures DistinctNetworkIds(d, file + [e]) <==>
      DistinctNetworkIds(d, file) && forall x <- file :: d.NetworkOf(x.key) != d.NetworkOf(e.key)
    ensures DistinctLocalIds(file + [e]) ==>
      DistinctLocalIds(file) && forall x <- file :: x.localId != e.localId
  {
    var more := file + [e];
    assert forall i :: 0 <= i < |file| ==> more[i] == file[i] && file[i] in file;
    assert more[|file|] == e;
  }

  lemma GrowInv(d: Derivation, s: State, e: Entry)
    requires Inv(d, s) && Accepts(s, e)
    ensures Inv(d, Grown(d, s, e))
  {
    GrowIndexed(d, s, e);
    PrefixDistinct(d, s.file, e);
    if DistinctNetworkIds(d, s.file + [e]) {
      GrowAgrees(d, s, e);
    }
  }

  ghost predicate Inv(d: Derivation, s: State) {
    Indexed(d, s) && (DistinctNetworkIds(d, s.file) ==> Agree(s))
  }

  lemma {:induction false} LoadInv(d: Derivation, file: seq<Entry>)
    requires DistinctLocalIds(file)
    ensures Inv(d, Load(d, file)) && Load(d, file).file == file
  {
    if file != [] {
      var init, e := file[..|file| - 1], file[|file| - 1];
      assert file == init + [e];
      PrefixDistinct(d, init, e);
      LoadInv(d, init);
      assert Accepts(Load(d, init), e);
      GrowInv(d, Load(d, init), e);
    }
  }

  lemma PutInv(d: Derivation, s: State, g: Gateway)
    requires Inv(d, s) && FromFile(d, s.file, g)
    ensures Inv(d, Put(s, g))
  {
    PutIndexed(d, s, g);
    if DistinctNetworkIds(d, s.file) {
      PutAgrees(d, s, g);
    }
  }

  lemma AddInv(d: Derivation, s: State, e: Entry, writes: bool)
    requires Inv(d, s)
    ensures Inv(d, Apply(d, s, Add(e, writes)))
  {
    if Accepts(s, e) && writes {
      GrowInv(d, s, e);
    }
  }

  lemma LookUpInv(d: Derivation, s: State, l: Eui)
    requires Inv(d, s)
    ensures Inv(d, Apply(d, s, LookUp(l)))
  {
  }

  lemma WriteBackInv(d: Derivation, s: State, g: Gateway, answer: Answer)
    requires Inv(d, s) && g in s.lookedUp
    ensures Inv(d, Apply(d, s, WriteBack(g, answer)))
  {
    var synced := Synced(d, g, answer);
    SyncedFromFile(d, s, g, answer);
    assert Apply(d, s, WriteBack(g, answer)) == Put(s, synced);
    PutInv(d, s, synced);
  }

  lemma SyncedFromFile(d: Derivation, s: State, g: Gateway, answer: Answer)
    requires Indexed(d, s) && g in s.lookedUp
    ensures FromFile(d, s.file, Synced(d, g, answer))
  {
  }

  lemma ApplyInv(d: Derivation, s: State, a: Action)
    requires Inv(d, s) && Enabled(s, a)
    ensures Inv(d, Apply(d, s, a))
  {
    match a
    case Add(e, writes) => AddInv(d, s, e, writes);
    case LookUp(l) => LookUpInv(d, s, l);
    case WriteBack(g, answer) => WriteBackInv(d, s, g, answer);
  }

  lemma {:induction false} RunInv(d: Derivation, s: State, actions: seq<Action>)
    requires Inv(d, s) && Allowed(d, s, actions)
    ensures Inv(d, Run(d, s, actions))
    decreases |actions|
  {
    if actions != [] {
      ApplyInv(d, s, actions[0]);
      RunInv(d, Apply(d, s, actions[0]), actions[1..]);
    }
  }

  lemma AgreeDistinct(d: Derivation, s: State)
    requires Indexed(d, s) && Agree(s)
    ensures DistinctNetworkIds(d, s.file)
  {
    forall i, j | 0 <= i < j < |s.file|
      ensures d.NetworkOf(s.file[i].key) != d.NetworkOf(s.file[j].key)
    {
      var a, b := s.file[i], s.file[j];
      var g, h := s.byLocalId[a.localId], s.byLocalId[b.localId];
      SameEntry(d, s.file, a, Entry(g.localId, g.key));
      SameEntry(d, s.file, b, Entry(h.localId, h.key));
      assert s.byNetId[g.networkId] == g && s.byNetId[h.networkId] == h;
    }
  }

  /** Starting from a file with distinct local ids, after any interleaving of additions with the
      two halves of syncs, the indexes agree exactly when the file's keys have distinct network
      ids. `Add` itself checks only the local id. */
  lemma AgreeIffKeysDistinct(d: Derivation, file: seq<Entry>, actions: seq<Action>)
    requires DistinctLocalIds(file) && Allowed(d, Load(d, file), actions)
    ensures var s := Run(d, Load(d, file), actions);
      Agree(s) <==> DistinctNetworkIds(d, s.file)
  {
    LoadInv(d, file);
    RunInv(d, Load(d, file), actions);
    var s := Run(d, Load(d, file), actions);
    if Agree(s) {
      AgreeDistinct(d, s);
    }
  }

  /** The check a caller can make: adding an accepted entry keeps agreement exactly when no
      stored gateway has the key's network id. */
  lemma AddAgreesIffFresh(d: Derivation, file: seq<Entry>, actions: seq<Action>, e: Entry)
    requires DistinctLocalIds(file) && Allowed(d, Load(d, file), actions)
    requires var s := Run(d, Load(d, file), actions); Agree(s) && Accepts(s, e)
    ensures var s := Run(d, Load(d, file), actions);
      Agree(Apply(d, s, Add(e, true))) <==> d.NetworkOf(e.key) !in s.byNetId
  {
    LoadInv(d, file);
    RunInv(d, Load(d, file), actions);
    var s := Run(d, Load(d, file), actions);
    GrowthAgreesIff(d, s, e);
  }

  /** The addition that fails: any stored key under a local id not yet known. It is accepted, and
      the indexes disagree from then on. */
  lemma AddingStoredKeyDisagrees(d: Derivation, file: seq<Entry>, actions: seq<Action>, x: Entry, l: Eui)
    requires DistinctLocalIds(file) && Allowed(d, Load(d, file), actions)
    requires var s := Run(d, Load(d, file), actions); x in s.file && l !in s.byLocalId
    ensures var s := Run(d, Load(d, file), actions);
      Accepts(s, Entry(l, x.key)) && !Agree(Apply(d, s, Add(Entry(l, x.key), true)))
  {
    LoadInv(d, file);
    RunInv(d, Load(d, file), actions);
    StoredKeyDisagrees(d, Run(d, Load(d, file), actions), x, l);
  }

  lemma StoredKeyDisagrees(d: Derivation, s: State, x: Entry, l: Eui)
    requires Indexed(d, s) && x in s.file && l !in s.byLocalId
    ensures !Agree(Grown(d, s, Entry(l, x.key)))
  {
    if Agree(Grown(d, s, Entry(l, x.key))) {
      AgreedGrowthIsFresh(d, s, Entry(l, x.key));
      assert false;
    }
  }

  /** A key is new to the network index exactly when it is new to the file. */
  lemma FreshInFile(d: Derivation, s: State, e: Entry)
    requires Indexed(d, s) && Agree(s)
    ensures d.NetworkOf(e.key) !in s.byNetId <==> forall x <- s.file :: d.NetworkOf(x.key) != d.NetworkOf(e.key)
  {
    var n := d.NetworkOf(e.key);
    if n in s.byNetId {
      var g := s.byNetId[n];
      assert FromFile(d, s.file, g) && d.NetworkOf(Entry(g.localId, g.key).key) == n;
    } else {
      forall x | x in s.file ensures d.NetworkOf(x.key) != n {
        StoredUnderItsNetworkId(d, s, x);
        assert s.byLocalId[x.localId].networkId in s.byNetId;
      }
    }
  }

  lemma GrowthAgreesIff(d: Derivation, s: State, e: Entry)
    requires Indexed(d, s) && Agree(s) && Accepts(s, e)
    ensures Agree(Grown(d, s, e)) <==> d.NetworkOf(e.key) !in s.byNetId
  {
    FreshInFile(d, s, e);
    if d.NetworkOf(e.key) !in s.byNetId {
      GrowAgrees(d, s, e);
    } else if Agree(Grown(d, s, e)) {
      AgreedGrowthIsFresh(d, s, e);
    }
  }

  lemma AgreedGrowthIsFresh(d: Derivation, s: State, e: Entry)
    requires Indexed(d, s) && Accepts(s, e) && Agree(Grown(d, s, e))
    ensures forall x <- s.file :: d.NetworkOf(x.key) != d.NetworkOf(e.key)
  {
    GrowIndexed(d, s, e);
    AgreeDistinct(d, Grown(d, s, e));
    PrefixDistinct(d, s.file, e);
  }

  /** A sync that began by looking a gateway up can write back at any later time, and when the
      registry onboards it, all three indexes then hold the gateway with the details supplied. */
  lemma SyncStoresDetails(d: Derivation, file: seq<Entry>, first: seq<Action>, second: seq<Action>, l: Eui, details: string)
    requires DistinctLocalIds(file) && Allowed(d, Load(d, file), first)
    requires var s := Run(d, Load(d, file), first);
      l in s.byLocalId && Allowed(d, Apply(d, s, LookUp(l)), second)
    ensures var s := Run(d, Load(d, file), first);
      var g, u := s.byLocalId[l], Run(d, Apply(d, s, LookUp(l)), second);
      && Enabled(u, WriteBack(g, Onboarded(details)))
      && var t := Apply(d, u, WriteBack(g, Onboarded(details)));
         var n := d.NetworkOf(g.key);
         && l in t.byLocalId && n in t.byNetId && d.thingsIx(g.key) in t.byThingsIxId
         && t.byLocalId[l] == t.byNetId[n] == t.byThingsIxId[d.thingsIx(g.key)]
         && t.byLocalId[l] == Gateway(l, g.key, d.thingsIx(g.key), n, Some(details)) && t.file == u.file
  {
    LoadInv(d, file);
    RunInv(d, Load(d, file), first);
    var s := Run(d, Load(d, file), first);
    assert s.byLocalId[l].localId == l;
    LookedUpGrows(d, Apply(d, s, LookUp(l)), second);
  }

  lemma {:induction false} LookedUpGrows(d: Derivation, s: State, actions: seq<Action>)
    requires Allowed(d, s, actions)
    ensures s.lookedUp <= Run(d, s, actions).lookedUp
    decreases |actions|
  {
    if actions != [] {
      LookedUpGrows(d, Apply(d, s, actions[0]), actions[1..]);
    }
  }

  // ---------- reloading and translating ----------

  /** The key under which a local id is stored. */
  function KeyOf(s: State, l: Eui): Option<PrivateKey> {
    if l in s.byLocalId then Some(s.byLocalId[l].key) else None
  }

  /** Reloading the file rebuilds the association of local ids with keys. */
  lemma ReloadRebuilds(d: Derivation, file: seq<Entry>, actions: seq<Action>, l: Eui)
    requires DistinctLocalIds(file) && Allowed(d, Load(d, file), actions)
    ensures var s := Run(d, Load(d, file), actions);
      KeyOf(Load(d, s.file), l) == KeyOf(s, l)
  {
    LoadInv(d, file);
    RunInv(d, Load(d, file), actions);
    var s := Run(d, Load(d, file), actions);
    LoadInv(d, s.file);
    var t := Load(d, s.file);
    if l in s.byLocalId && l in t.byLocalId {
      SameEntry(d, s.file, Entry(l, s.byLocalId[l].key), Entry(l, t.byLocalId[l].key));
    }
  }

  /** What an uplink's gateway id is translated to on its way to the network. */
  function ToNetwork(s: State, l: Eui): Option<Eui> {
    if l in s.byLocalId then Some(s.byLocalId[l].networkId) else None
  }

  /** What a downlink's gateway id is translated to on its way to the gateway. */
  function ToLocal(s: State, n: Eui): Option<Eui> {
    if n in s.byNetId then Some(s.byNetId[n].localId) else None
  }

  /** An identifier translated there and back is the same. */
  ghost predicate Inverse(s: State) {
    forall l: Eui, n: Eui :: ToNetwork(s, l) == Some(n) <==> ToLocal(s, n) == Some(l)
  }

  /** The two translations are inverse to each other, for all identifiers, if and only if the
      stored keys have distinct network ids. */
  lemma TranslationsInverse(d: Derivation, file: seq<Entry>, actions: seq<Action>)
    requires DistinctLocalIds(file) && Allowed(d, Load(d, file), actions)
    ensures var s := Run(d, Load(d, file), actions);
      Inverse(s) <==> DistinctNetworkIds(d, s.file)
  {
    AgreeIffKeysDistinct(d, file, actions);
    LoadInv(d, file);
    RunInv(d, Load(d, file), actions);
    InverseIff(d, Run(d, Load(d, file), actions));
  }

  lemma InverseIff(d: Derivation, s: State)
    requires Indexed(d, s) && (DistinctNetworkIds(d, s.file) ==> Agree(s))
    ensures Inverse(s) <==> DistinctNetworkIds(d, s.file)
  {
    if Inverse(s) {
      forall i, j | 0 <= i < j < |s.file|
        ensures d.NetworkOf(s.file[i].key) != d.NetworkOf(s.file[j].key)
      {
        var a, b := s.file[i], s.file[j];
        assert a in s.file && b in s.file;
        StoredUnderItsNetworkId(d, s, a);
        StoredUnderItsNetworkId(d, s, b);
      }
    }
  }

  lemma StoredUnderItsNetworkId(d: Derivation, s: State, a: Entry)
    requires Indexed(d, s) && a in s.file
    ensures ToNetwork(s, a.localId) == Some(d.NetworkOf(a.key))
  {
    var g := s.byLocalId[a.localId];
    SameEntry(d, s.file, a, Entry(g.localId, g.key));
  }

  // ---------- the code ----------

  class YamlFileStore {
    const derivation: Derivation
    var file: seq<Entry>
    var byLocalId: map<Eui, Gateway>
    var byNetId: map<Eui, Gateway>
    var byThingsIxId: map<ThingsIxId, Gateway>

    ghost function View(lookedUp: set<Gateway>): State
      reads this
    {
      State(file, byLocalId, byNetId, byThingsIxId, lookedUp)
    }

    constructor (derivation: Derivation, file: seq<Entry>)
      ensures View({}) == Load(derivation, file) && this.derivation == derivation
    {
      this.derivation, this.file := derivation, file;
      byLocalId, byNetId, byThingsIxId := map[], map[], map[];
      new;
      LoadFromFile();
    }

    method LoadFromFile()
      modifies this
      ensures View({}) == Load(derivation, old(file)).(file := old(file))
    {
      byLocalId, byNetId, byThingsIxId := map[], map[], map[];
      for i := 0 to |file|
        invariant file == old(file)
        invariant View({}) == Load(derivation, file[..i]).(file := file)
      {
        assert file[..i + 1][..i] == file[..i];
        Index(Derive(derivation, file[i], None));
      }
      assert file[..|file|] == file;
    }

    method Index(g: Gateway)
      modifies this
      ensures forall lookedUp: set<Gateway> :: View(lookedUp) == Put(old(View(lookedUp)), g)
      ensures file == old(file)
    {
      byLocalId := byLocalId[g.localId := g];
      byNetId := byNetId[g.networkId := g];
      byThingsIxId := byThingsIxId[g.thingsIxId := g];
    }

    method Add(localId: Eui, key: PrivateKey, writes: bool) returns (added: bool)
      modifies this
      ensures forall lookedUp: set<Gateway> ::
        View(lookedUp) == Apply(derivation, old(View(lookedUp)), Action.Add(Entry(localId, key), writes))
      ensures added == (localId !in old(byLocalId) && writes)
      ensures file == if added then old(file) + [Entry(localId, key)] else old(file)
    {
      if localId in byLocalId || !writes {
        return false;
      }
      file := file + [Entry(localId, key)];
      Index(Derive(derivation, Entry(localId, key), None));
      return true;
    }

    method ByLocalId(localId: Eui) returns (gateway: Option<Gateway>)
      ensures gateway == if localId in byLocalId then Some(byLocalId[localId]) else None
    {
      return if localId in byLocalId then Some(byLocalId[localId]) else None;
    }

    /** The second half of a sync; `answer` is None when the registry could not be asked. */
    method WriteBack(gateway: Gateway, answer: Option<Answer>) returns (synced: Gateway)
      modifies this
      ensures forall lookedUp: set<Gateway> ::
        View(lookedUp) == if answer.None? then old(View(lookedUp))
                          else Apply(derivation, old(View(lookedUp)), Action.WriteBack(gateway, answer.value))
      ensures synced == if answer.None? then gateway else Synced(derivation, gateway, answer.value)
    {
      if answer.None? {
        return gateway;
      }
      synced := gateway;
      if answer.value.Onboarded? {
        synced := Derive(derivation, Entry(gateway.localId, gateway.key), Some(answer.value.details));
      }
      Index(synced);
    }

    /** A whole sync, when nothing else happens between its halves. */
    method SyncGatewayByLocalId(localId: Eui, answer: Option<Answer>) returns (synced: Option<Gateway>)
      modifies this
      ensures localId !in old(byLocalId) ==> synced == None && View({}) == old(View({}))
      ensures localId in old(byLocalId) ==> synced.Some?
      ensures localId in old(byLocalId) && answer.None? ==> View({}) == old(View({}))
      ensures localId in old(byLocalId) && answer.Some? ==>
        View({}) == Apply(derivation, old(View({})), Action.WriteBack(old(byLocalId)[localId], answer.value))
    {
      var gateway := ByLocalId(localId);
      if gateway.None? {
        return None;
      }
      var g := WriteBack(gateway.value, answer);
      return Some(g);
    }
  }
}
