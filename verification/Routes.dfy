/** The routing table: which router clients run. Every refresh compares the table with the
    fetched routers, of which only those whose frequency plan some gateway uses matter. */
module Routes {
  datatype RouterId = RouterId(id: int)

  type Plan = int

  datatype RouterInfo = RouterInfo(id: RouterId, plan: Plan)

  /** What a refresh tells clients: a new one starts, one is stopped, or one gets the details. */
  datatype Command = Start(id: RouterId) | Stop(id: RouterId) | Update(id: RouterId)

  /** The routers the table should hold. */
  function Wanted(routers: seq<RouterInfo>, plans: set<Plan>): set<RouterId> {
    set r <- routers | r.plan in plans :: r.id
  }

  /** How often a usable router is listed. */
  function Listed(routers: seq<RouterInfo>, plans: set<Plan>, id: RouterId): nat {
    if routers == [] then 0
    else
      var r := routers[|routers| - 1];
      Listed(routers[..|routers| - 1], plans, id) + if r.id == id && r.plan in plans then 1 else 0
  }

  /** A refresh from table `before`: the table becomes the wanted one; what is no longer wanted
      is stopped once, what is new is started once, and every other listing is an update. */
  ghost predicate Round(before: set<RouterId>, commands: seq<Command>, after: set<RouterId>,
                        routers: seq<RouterInfo>, plans: set<Plan>)
  {
    var wanted := Wanted(routers, plans);
    && after == wanted
    && forall id: RouterId ::
      && multiset(commands)[Stop(id)] == (if id in before - wanted then 1 else 0)
      && multiset(commands)[Start(id)] == (if id in wanted - before then 1 else 0)
      && multiset(commands)[Update(id)] == Listed(routers, plans, id) - if id in wanted - before then 1 else 0
  }

  /** The stops of a round: each router no longer wanted, once. */
  ghost predicate Stopped(commands: seq<Command>, gone: set<RouterId>) {
    forall c: Command :: multiset(commands)[c] == (if c.Stop? && c.id in gone then 1 else 0)
  }

  /** The rest of a round: what is new is started once, every other listing is an update. */
  ghost predicate StartedOrUpdated(commands: seq<Command>, before: set<RouterId>, routers: seq<RouterInfo>, plans: set<Plan>) {
    forall id: RouterId ::
      var started := if id in Wanted(routers, plans) - before then 1 else 0;
      && multiset(commands)[Stop(id)] == 0
      && multiset(commands)[Start(id)] == started
      && multiset(commands)[Update(id)] == Listed(routers, plans, id) - started
  }

  lemma NextListed(commands: seq<Command>, before: set<RouterId>, routers: seq<RouterInfo>, plans: set<Plan>, r: RouterInfo)
    requires StartedOrUpdated(commands, before, routers, plans)
    ensures Wanted(routers + [r], plans) == Wanted(routers, plans) + (if r.plan in plans then {r.id} else {})
    ensures var known := r.id in before + Wanted(routers, plans);
      var command := if r.plan !in plans then [] else if known then [Update(r.id)] else [Start(r.id)];
      StartedOrUpdated(commands + command, before, routers + [r], plans)
  {
    assert (routers + [r])[..|routers|] == routers;
    assert Wanted(routers + [r], plans) == Wanted(routers, plans) + (if r.plan in plans then {r.id} else {});
    var known := r.id in before + Wanted(routers, plans);
    var command := if r.plan !in plans then [] else if known then [Update(r.id)] else [Start(r.id)];
    assert multiset(commands + command) == multiset(commands) + multiset(command);
  }

  // ---------- all rounds together ----------

  datatype Refresh = Refresh(routers: seq<RouterInfo>, plans: set<Plan>, commands: seq<Command>)

  /** A run of refreshes from an empty table; `tables` are the tables after each. */
  ghost predicate Rounds(refreshes: seq<Refresh>, tables: seq<set<RouterId>>) {
    && |tables| == |refreshes| + 1 && tables[0] == {}
    && forall i :: 0 <= i < |refreshes| ==>
      Round(tables[i], refreshes[i].commands, tables[i + 1], refreshes[i].routers, refreshes[i].plans)
  }

  function AllCommands(refreshes: seq<Refresh>): multiset<Command> {
    if refreshes == [] then multiset{}
    else AllCommands(refreshes[..|refreshes| - 1]) + multiset(refreshes[|refreshes| - 1].commands)
  }

  /** Over all rounds a router has been started once more than stopped when it is in the table,
      and as often otherwise; no round stops and starts the same router. */
  lemma {:induction false} StartsMinusStops(refreshes: seq<Refresh>, tables: seq<set<RouterId>>, id: RouterId)
    requires Rounds(refreshes, tables)
    ensures var all := AllCommands(refreshes);
      all[Start(id)] == all[Stop(id)] + if id in tables[|refreshes|] then 1 else 0
    ensures forall r <- refreshes :: !(Start(id) in r.commands && Stop(id) in r.commands)
  {
    if refreshes != [] {
      var n := |refreshes| - 1;
      var last := refreshes[n];
      assert Rounds(refreshes[..n], tables[..n + 1]);
      StartsMinusStops(refreshes[..n], tables[..n + 1], id);
      assert Round(tables[n], last.commands, tables[n + 1], last.routers, last.plans);
      assert Start(id) in last.commands <==> multiset(last.commands)[Start(id)] > 0;
      assert Stop(id) in last.commands <==> multiset(last.commands)[Stop(id)] > 0;
      assert refreshes == refreshes[..n] + [last];
    }
  }

  // ---------- the code ----------

  class RoutingTable {
    var existingRouters: set<RouterId>

    constructor ()
      ensures existingRouters == {}
    {
      existingRouters := {};
    }

    /** Whether the router is still listed with a plan in use. */
    method StillWanted(id: RouterId, routers: seq<RouterInfo>, plans: set<Plan>) returns (wanted: bool)
      ensures wanted <==> id in Wanted(routers, plans)
      ensures wanted <==> exists r <- routers :: r.id == id && r.plan in plans
    {
      for i := 0 to |routers|
        invariant forall k :: 0 <= k < i ==> !(routers[k].id == id && routers[k].plan in plans)
      {
        if routers[i].id == id && routers[i].plan in plans {
          return true;
        }
      }
      return false;
    }

    /** The stops of a refresh, in the arbitrary order in which the table is ranged over. */
    method StopDeleted(routers: seq<RouterInfo>, plans: set<Plan>) returns (commands: seq<Command>)
      modifies this
      ensures existingRouters == old(existingRouters) * Wanted(routers, plans)
      ensures Stopped(commands, old(existingRouters) - Wanted(routers, plans))
    {
      commands := [];
      var todo := existingRouters;
      while todo != {}
        invariant todo <= old(existingRouters)
        invariant existingRouters == todo + (old(existingRouters) * Wanted(routers, plans))
        invariant Stopped(commands, old(existingRouters) - todo - Wanted(routers, plans))
        decreases todo
      {
        var id :| id in todo;
        todo := todo - {id};
        var wanted := StillWanted(id, routers, plans);
        if !wanted {
          commands := commands + [Stop(id)];
          existingRouters := existingRouters - {id};
        }
      }
    }

    method StartOrUpdate(routers: seq<RouterInfo>, plans: set<Plan>) returns (commands: seq<Command>)
      modifies this
      ensures existingRouters == old(existingRouters) + Wanted(routers, plans)
      ensures StartedOrUpdated(commands, old(existingRouters), routers, plans)
    {
      commands := [];
      for i := 0 to |routers|
        invariant existingRouters == old(existingRouters) + Wanted(routers[..i], plans)
        invariant StartedOrUpdated(commands, old(existingRouters), routers[..i], plans)
      {
        var r := routers[i];
        assert routers[..i + 1] == routers[..i] + [r];
        NextListed(commands, old(existingRouters), routers[..i], plans, r);
        if r.plan !in plans {
          assert commands + [] == commands;
          continue;
        }
        if r.id in existingRouters {
          commands := commands + [Update(r.id)];
        } else {
          commands := commands + [Start(r.id)];
          existingRouters := existingRouters + {r.id};
        }
      }
      assert routers[..|routers|] == routers;
    }

    method Refresh(routers: seq<RouterInfo>, plans: set<Plan>) returns (commands: seq<Command>)
      modifies this
      ensures Round(old(existingRouters), commands, existingRouters, routers, plans)
      ensures forall id: RouterId :: id in existingRouters <==> exists r <- routers :: r.id == id && r.plan in plans
    {
      var stops := StopDeleted(routers, plans);
      var starts := StartOrUpdate(routers, plans);
      commands := stops + starts;
    }
  }
}
