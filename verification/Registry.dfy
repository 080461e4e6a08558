/** The registry of gateways that contacted the UDP backend, and the presence events it emits. */
module Registry {
  import opened Words
  import opened Frames
  import Stats

  const CLEANUP_AFTER := MINUTE

  type Address = int

  datatype Gateway = Gateway(stats: Stats.Collector, address: Address, lastSeen: int, protocolVersion: int)

  datatype Presence = Presence(online: bool, gateway: Eui)

  predicate Expired(gateway: Gateway, now: int) { gateway.lastSeen < now - CLEANUP_AFTER }

  /** What was last reported about a gateway. */
  function LastReport(events: seq<Presence>, id: Eui): Option<bool> {
    if events == [] then None
    else
      var e := events[|events| - 1];
      if e.gateway == id then Some(e.online) else LastReport(events[..|events| - 1], id)
  }

  lemma LastReportAppend(events: seq<Presence>, e: Presence, id: Eui)
    ensures LastReport(events + [e], id) == if e.gateway == id then Some(e.online) else LastReport(events, id)
  {
    assert (events + [e])[..|events|] == events;
  }

  /** The gateways left when those in `todo` have not been looked at yet. */
  ghost function Kept(before: map<Eui, Gateway>, todo: set<Eui>, now: int): map<Eui, Gateway> {
    map id | id in before && (id in todo || !Expired(before[id], now)) :: before[id]
  }

  lemma KeptStep(before: map<Eui, Gateway>, todo: set<Eui>, now: int, id: Eui)
    requires todo <= before.Keys && id in todo
    ensures id in Kept(before, todo, now) && Kept(before, todo, now)[id] == before[id]
    ensures Kept(before, todo - {id}, now) ==
      if Expired(before[id], now) then Kept(before, todo, now) - {id} else Kept(before, todo, now)
    ensures |before.Keys - Kept(before, todo - {id}, now).Keys| ==
      |before.Keys - Kept(before, todo, now).Keys| + if Expired(before[id], now) then 1 else 0
  {
    var left, next := Kept(before, todo, now), Kept(before, todo - {id}, now);
    assert before.Keys - next.Keys == (before.Keys - left.Keys) + if Expired(before[id], now) then {id} else {};
  }

  class Gateways {
    var gateways: map<Eui, Gateway>
    /** The presence events handed to the forwarder so far. */
    ghost var events: seq<Presence>

    /** The registered gateways are those last reported online; collectors are not shared. */
    ghost predicate Valid()
      reads this
    {
      && (forall id: Eui :: id in gateways <==> LastReport(events, id) == Some(true))
      && (forall a, b :: a in gateways && b in gateways && a != b ==> gateways[a].stats != gateways[b].stats)
    }

    ghost function Collectors(): set<Stats.Collector>
      reads this
    {
      set id <- gateways :: gateways[id].stats
    }

    constructor ()
      ensures Valid() && gateways == map[] && events == []
    {
      gateways, events := map[], [];
    }

    method Get(id: Eui) returns (gateway: Option<Gateway>)
      ensures gateway == if id in gateways then Some(gateways[id]) else None
    {
      if id in gateways {
        return Some(gateways[id]);
      }
      return None;
    }

    /** Registers or refreshes a gateway; a registered gateway keeps its statistics. */
    method Set(id: Eui, address: Address, now: int, protocolVersion: int)
      requires Valid()
      modifies this
      ensures Valid()
      ensures gateways.Keys == old(gateways.Keys) + {id}
      ensures forall g :: g in gateways && g != id ==> gateways[g] == old(gateways)[g]
      ensures gateways[id] == Gateway(gateways[id].stats, address, now, protocolVersion)
      ensures if id in old(gateways) then gateways[id].stats == old(gateways)[id].stats
              else fresh(gateways[id].stats) && gateways[id].stats.Value() == Stats.ZERO
      ensures events == old(events) + [Presence(true, id)]
    {
      var stats;
      if id in gateways {
        stats := gateways[id].stats;
      } else {
        stats := new Stats.Collector();
      }
      forall g: Eui { LastReportAppend(events, Presence(true, id), g); }
      events := events + [Presence(true, id)];
      gateways := gateways[id := Gateway(stats, address, now, protocolVersion)];
    }

    method Drop(id: Eui)
      requires Valid() && id in gateways
      modifies this
      ensures Valid()
      ensures gateways == old(gateways) - {id}
      ensures events == old(events) + [Presence(false, id)]
    {
      forall g: Eui { LastReportAppend(events, Presence(false, id), g); }
      events := events + [Presence(false, id)];
      gateways := gateways - {id};
    }

    /** Removes exactly the gateways not seen for a minute, reporting each as offline once. */
    method Cleanup(now: int)
      requires Valid()
      modifies this
      ensures Valid()
      ensures gateways == map id | id in old(gateways) && old(gateways)[id].lastSeen >= now - 60_000_000_000 :: old(gateways)[id]
      ensures |events| == |old(events)| + |old(gateways).Keys - gateways.Keys|
      ensures old(events) <= events
    {
      var todo := gateways.Keys;
      ghost var before, log := gateways, events;
      while todo != {}
        invariant Valid() && todo <= before.Keys
        invariant gateways == Kept(before, todo, now)
        invariant |events| == |log| + |before.Keys - gateways.Keys| && log <= events
        decreases todo
      {
        var id :| id in todo;
        KeptStep(before, todo, now, id);
        todo := todo - {id};
        if Expired(gateways[id], now) {
          Drop(id);
        }
      }
    }
  }
}
