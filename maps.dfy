/** MapManager: the registry of map instances (`activeInstances`, id ->
    instance) and the player index (`playerToInstance`, player -> id).

    The scheduled Bukkit callbacks are explicit methods that may be called in
    any order. Like the source's lambdas, the provisioning callbacks, the
    no-join timer and the teardown timer act on the instance object they
    captured, while `destroyMap` acts on whatever the registry holds under the
    id at the time. Nothing here keeps a player in at most one instance: a
    join overwrites the index entry without leaving the previous instance,
    `destroyMap` leaves index entries behind, and a party map replaces any
    instance registered under the same id. */
module Maps {
  import opened Common
  import opened Config
  import opened Instances
  import Timers

  /** The id of a map's one public instance: the map name after `PUBLIC_`. */
  function PublicId(mapName: string): (id: string)
    ensures |id| == |mapName| + 7 && id[..7] == "PUBLIC_" && id[7..] == mapName
  {
    "PUBLIC_" + mapName
  }

  /** A private id: dropping the map name and one separator character gives
      back the random code (how the private-map command recovers it). */
  function PrivateId(mapName: string, code: string): (id: string)
    ensures |id| == |mapName| + 1 + |code|
    ensures id[..|mapName|] == mapName && id[|mapName|] == '_' && id[|mapName| + 1..] == code
  {
    mapName + "_" + code
  }

  /** A party id ends with the party code after the fixed `_party-` marker. */
  function PartyId(mapName: string, partyCode: string): (id: string)
    ensures |id| == |mapName| + 7 + |partyCode|
    ensures id[..|mapName|] == mapName && id[|mapName|..|mapName| + 7] == "_party-"
    ensures id[|mapName| + 7..] == partyCode
  {
    mapName + "_party-" + partyCode
  }

  predicate IsHexDigit(c: char) {
    '0' <= c <= '9' || 'a' <= c <= 'f'
  }

  /** The first eight characters of a random UUID's text form. */
  predicate IsRandomCode(code: string) {
    |code| == 8 && forall i :: 0 <= i < |code| ==> IsHexDigit(code[i])
  }

  /** A private id never coincides with a party id of the same map: right
      after the separator a private id has a hex digit, a party id a `p`. */
  lemma PrivateIdIsNoPartyId(mapName: string, code: string, partyCode: string)
    requires IsRandomCode(code)
    ensures PrivateId(mapName, code) != PartyId(mapName, partyCode)
  {
    var k := |mapName| + 1;
    assert PrivateId(mapName, code)[k] == code[0];
    assert PartyId(mapName, partyCode)[k] == 'p';
  }

  /** Two maps never share a public instance id. */
  lemma PublicIdInjective(a: string, b: string)
    ensures PublicId(a) == PublicId(b) ==> a == b
  {
    if PublicId(a) == PublicId(b) {
      assert a == PublicId(a)[7..];
      assert b == PublicId(b)[7..];
    }
  }

  /** Why `joinMap` lets a player in or turns them away, once the id is known
      to be registered. */
  datatype JoinOutcome = UnknownInstance | AlreadyInMap | Queued | NotReady | NoPermission | Full | Joined

  /** The checks of `joinMap` after the registry lookup, in the order the
      source makes them: the player already indexed to this id, a CREATING
      instance (queue), a state other than WAITING or RUNNING, the permission
      decision, the capacity. */
  function JoinDecision(alreadyHere: bool, state: MapState, permitted: bool, occupancy: nat, maxPlayers: int): (o: JoinOutcome)
    ensures o != UnknownInstance
    ensures o == AlreadyInMap <==> alreadyHere
    ensures o == Queued <==> !alreadyHere && state == Creating
    ensures o == NotReady <==> !alreadyHere && state !in {Creating, Waiting, Running}
    ensures o == NoPermission <==> !alreadyHere && state in {Waiting, Running} && !permitted
    ensures o == Full <==> !alreadyHere && state in {Waiting, Running} && permitted && occupancy >= maxPlayers
    ensures o == Joined <==> !alreadyHere && state in {Waiting, Running} && permitted && occupancy < maxPlayers
  {
    if alreadyHere then AlreadyInMap
    else if state == Creating then Queued
    else if state != Waiting && state != Running then NotReady
    else if !permitted then NoPermission
    else if occupancy >= maxPlayers then Full
    else Joined
  }

  /** An ENDING instance (emptied, teardown pending) turns every joiner away. */
  lemma EndingRejectsJoins(alreadyHere: bool, permitted: bool, occupancy: nat, maxPlayers: int)
    ensures JoinDecision(alreadyHere, Ending, permitted, occupancy, maxPlayers) in {AlreadyInMap, NotReady}
  {
  }

  /** What a fresh instance looks like right after construction. */
  predicate JustCreated(inst: MapInstance, instanceId: string, mapName: string, isPublic: bool, now: int)
    reads inst
  {
    && inst.instanceId == instanceId && inst.mapName == mapName && inst.isPublic == isPublic
    && inst.createdAt == now
    && inst.state == Creating && inst.IsEmpty()
    && inst.world.None? && inst.spawnLocation.None?
  }

  /** The spawn used when the gold-block scan finds nothing: one block above
      the paste origin (0, 100, 0). */
  const FallbackSpawn := Location(0.0, 101.0, 0.0)

  /** The index after every player of `admitted` was pointed at `instanceId`. */
  function Indexed(index: map<Uuid, string>, admitted: set<Uuid>, instanceId: string): map<Uuid, string> {
    index + map p | p in admitted :: instanceId
  }

  /** Exactly the admitted players change, and they now point at the id. */
  lemma IndexedPointsAt(index: map<Uuid, string>, admitted: set<Uuid>, instanceId: string)
    ensures Indexed(index, admitted, instanceId).Keys == index.Keys + admitted
    ensures forall p :: p in Indexed(index, admitted, instanceId) ==>
      Indexed(index, admitted, instanceId)[p] == if p in admitted then instanceId else index[p]
  {
  }

  lemma IndexedOneMore(index: map<Uuid, string>, admitted: set<Uuid>, p: Uuid, instanceId: string)
    ensures Indexed(index, admitted, instanceId)[p := instanceId] == Indexed(index, admitted + {p}, instanceId)
  {
  }

  /** A teardown timer scheduled by `leaveMap`: the id and the instance object
      the timer captured. */
  datatype Teardown = Teardown(instanceId: string, instance: MapInstance)

  class MapManager {
    const config: ConfigManager
    var activeInstances: map<string, MapInstance>
    var playerToInstance: map<Uuid, string>

    /** Each instance is registered under its own id, and a public instance
        under the public id of its map. */
    ghost predicate Valid()
      reads this
    {
      forall id :: id in activeInstances ==>
        && activeInstances[id].instanceId == id
        && (activeInstances[id].isPublic ==> id == PublicId(activeInstances[id].mapName))
    }

    constructor (config: ConfigManager)
      ensures Valid() && this.config == config
      ensures activeInstances == map[] && playerToInstance == map[]
    {
      this.config := config;
      activeInstances := map[];
      playerToInstance := map[];
    }

    /** The instance registered under `instanceId`, as a frame. */
    function InstanceAt(instanceId: string): set<MapInstance>
      reads this
    {
      if instanceId in activeInstances then {activeInstances[instanceId]} else {}
    }

    /** `createPublicMap`: at most one public instance per map. An existing
        one is reused and no provisioning starts; otherwise a new instance is
        registered and handed back for provisioning. */
    method CreatePublicMap(mapName: string, now: int) returns (instanceId: string, provisioning: MapInstance?)
      requires Valid()
      modifies this`activeInstances
      ensures Valid()
      ensures instanceId == PublicId(mapName)
      ensures instanceId in old(activeInstances) ==> activeInstances == old(activeInstances) && provisioning == null
      ensures instanceId !in old(activeInstances) ==>
        && provisioning != null && fresh(provisioning)
        && activeInstances == old(activeInstances)[instanceId := provisioning]
        && JustCreated(provisioning, instanceId, mapName, true, now)
    {
      instanceId := PublicId(mapName);
      if instanceId in activeInstances {
        return instanceId, null;
      }
      var inst := new MapInstance(instanceId, mapName, true, now);
      activeInstances := activeInstances[instanceId := inst];
      provisioning := inst;
    }

    /** `createPrivateMap`: the id is the map name, `_` and a random code of
        eight hex digits. Freshness is not checked: a registered instance
        with the same id is replaced. */
    method CreatePrivateMap(mapName: string, now: int) returns (instanceId: string, provisioning: MapInstance)
      requires Valid()
      modifies this`activeInstances
      ensures Valid()
      ensures |instanceId| == |mapName| + 9
      ensures IsRandomCode(instanceId[|mapName| + 1..]) && instanceId == PrivateId(mapName, instanceId[|mapName| + 1..])
      ensures fresh(provisioning) && activeInstances == old(activeInstances)[instanceId := provisioning]
      ensures JustCreated(provisioning, instanceId, mapName, false, now)
    {
      assert IsRandomCode("00000000");
      var code: string :| IsRandomCode(code);
      assert IsRandomCode(code);
      assert |code| == 8;
      instanceId := PrivateId(mapName, code);
      assert instanceId[|mapName| + 1..] == code;
      provisioning := new MapInstance(instanceId, mapName, false, now);
      activeInstances := activeInstances[instanceId := provisioning];
    }

    /** `createPartyMap`: the id is derived from the map and the party code;
        an instance already registered under it is replaced unchecked. */
    method CreatePartyMap(mapName: string, partyCode: string, now: int) returns (instanceId: string, provisioning: MapInstance)
      requires Valid()
      modifies this`activeInstances
      ensures Valid()
      ensures instanceId == PartyId(mapName, partyCode)
      ensures fresh(provisioning) && activeInstances == old(activeInstances)[instanceId := provisioning]
      ensures JustCreated(provisioning, instanceId, mapName, false, now)
    {
      instanceId := PartyId(mapName, partyCode);
      provisioning := new MapInstance(instanceId, mapName, false, now);
      activeInstances := activeInstances[instanceId := provisioning];
    }

    /** Start of `initializeMap`: the captured instance is put back to CREATING. */
    method BeginProvisioning(inst: MapInstance)
      modifies inst`state
      ensures inst.state == Creating
    {
      inst.SetState(Creating);
    }

    /** The world was created: it is named after the instance id. */
    method AttachWorld(inst: MapInstance)
      modifies inst`world
      ensures inst.world == Some(World(inst.instanceId))
    {
      inst.SetWorld(World(inst.instanceId));
    }

    /** No schematic is mapped to the map, or the paste failed: ERROR. */
    method ProvisionFailed(inst: MapInstance)
      modifies inst`state
      ensures inst.state == Error
    {
      inst.SetState(Error);
    }

    /** A queued player the drain may let in: online and permitted. */
    predicate MayEnter(inst: MapInstance, p: Uuid, online: map<Uuid, Player>)
      reads config
    {
      p in online && config.CanPlayerJoinMap(online[p], inst.mapName)
    }

    /** The provisioning success callback: sets the spawn (the gold block
        found, or the fallback), goes to WAITING and drains the queue. A queued
        player is admitted when online, permitted and while the instance is
        below capacity; the queue is then emptied whatever happened, and the
        instance is RUNNING exactly when somebody is in. `online` is the
        server's table of online players. Answers the admitted players. */
    method ProvisionSucceeded(inst: MapInstance, found: Option<Location>, online: map<Uuid, Player>)
      returns (admitted: set<Uuid>)
      modifies this`playerToInstance, inst`spawnLocation, inst`state, inst`players, inst`waitingPlayers
      ensures inst.spawnLocation == Some(found.GetOr(FallbackSpawn))
      ensures admitted <= old(inst.waitingPlayers)
      ensures forall p :: p in admitted ==> MayEnter(inst, p, online)
      ensures inst.players == old(inst.players) + admitted
      ensures playerToInstance == Indexed(old(playerToInstance), admitted, inst.instanceId)
      ensures admitted != {} ==> |inst.players| <= config.MaxPlayers()
      ensures forall p :: p in old(inst.waitingPlayers) && MayEnter(inst, p, online) && p !in admitted ==>
        |inst.players| >= config.MaxPlayers()
      ensures inst.waitingPlayers == {}
      ensures inst.state == if inst.players == {} then Waiting else Running
    {
      inst.SetSpawnLocation(found.GetOr(FallbackSpawn));
      inst.SetState(Waiting);
      admitted := Drain(inst, inst.waitingPlayers, online);
      inst.ClearWaitingPlayers();
      if inst.players != {} {
        inst.SetState(Running);
      }
    }

    /** The drain loop over a copy of the queue, in no particular order. */
    method Drain(inst: MapInstance, queue: set<Uuid>, online: map<Uuid, Player>) returns (admitted: set<Uuid>)
      modifies this`playerToInstance, inst`players
      ensures admitted <= queue
      ensures forall p :: p in admitted ==> MayEnter(inst, p, online)
      ensures inst.players == old(inst.players) + admitted
      ensures playerToInstance == Indexed(old(playerToInstance), admitted, inst.instanceId)
      ensures admitted != {} ==> |inst.players| <= config.MaxPlayers()
      ensures forall p :: p in queue && MayEnter(inst, p, online) && p !in admitted ==>
        |inst.players| >= config.MaxPlayers()
    {
      var remaining := queue;
      admitted := {};
      ghost var eligible := set p | p in queue && MayEnter(inst, p, online);
      ghost var cap := config.MaxPlayers();
      ghost var start := inst.players;
      while remaining != {}
        invariant remaining <= queue
        invariant admitted <= eligible - remaining
        invariant inst.players == start + admitted
        invariant playerToInstance == Indexed(old(playerToInstance), admitted, inst.instanceId)
        invariant admitted != {} ==> |inst.players| <= cap
        invariant forall p :: p in eligible - remaining && p !in admitted ==> |inst.players| >= cap
        decreases remaining
      {
        var p :| p in remaining;
        remaining := remaining - {p};
        ghost var before := inst.players;
        var ok := AdmitQueued(inst, p, online);
        if ok {
          IndexedOneMore(old(playerToInstance), admitted, p, inst.instanceId);
          admitted := admitted + {p};
          assert inst.players == before + {p};
        }
      }
    }

    /** One step of the drain: the queued player is admitted when online,
        permitted and the instance is below capacity. */
    method AdmitQueued(inst: MapInstance, p: Uuid, online: map<Uuid, Player>) returns (ok: bool)
      modifies this`playerToInstance, inst`players
      ensures ok <==> old(MayEnter(inst, p, online) && |inst.players| < config.MaxPlayers())
      ensures ok ==> inst.players == old(inst.players) + {p} && playerToInstance == old(playerToInstance)[p := inst.instanceId]
      ensures !ok ==> inst.players == old(inst.players) && playerToInstance == old(playerToInstance)
    {
      ok := MayEnter(inst, p, online) && |inst.players| < config.MaxPlayers();
      if ok {
        inst.AddPlayer(p);
        playerToInstance := playerToInstance[p := inst.instanceId];
      }
    }

    /** The verdict `joinMap` reaches, the registry lookup included. */
    function Decision(player: Player, instanceId: string): (o: JoinOutcome)
      reads this, config, InstanceAt(instanceId)
      ensures o == UnknownInstance <==> instanceId !in activeInstances
    {
      if instanceId !in activeInstances then UnknownInstance
      else
        var inst := activeInstances[instanceId];
        JoinDecision(player.id in playerToInstance && playerToInstance[player.id] == instanceId,
          inst.state, config.CanPlayerJoinMap(player, inst.mapName), |inst.players|, config.MaxPlayers())
    }

    /** `joinMap`: answers true for a queued or admitted player. A queued
        player only enters `waitingPlayers`; an admitted one enters `players`
        and the index, and a WAITING instance starts RUNNING. Every refusal
        changes nothing. */
    method JoinMap(player: Player, instanceId: string) returns (joined: bool)
      modifies this`playerToInstance, InstanceAt(instanceId)
      ensures joined <==> old(Decision(player, instanceId)) in {Queued, Joined}
      ensures old(Decision(player, instanceId)) !in {Queued, Joined} ==>
        playerToInstance == old(playerToInstance) && unchanged(InstanceAt(instanceId))
      ensures old(Decision(player, instanceId)) == Queued ==>
        var inst := activeInstances[instanceId];
        && inst.waitingPlayers == old(inst.waitingPlayers) + {player.id}
        && inst.players == old(inst.players) && inst.state == old(inst.state)
        && inst.world == old(inst.world) && inst.spawnLocation == old(inst.spawnLocation)
        && playerToInstance == old(playerToInstance)
      ensures old(Decision(player, instanceId)) == Joined ==>
        var inst := activeInstances[instanceId];
        && inst.players == old(inst.players) + {player.id}
        && |inst.players| <= config.MaxPlayers()
        && playerToInstance == old(playerToInstance)[player.id := instanceId]
        && inst.state == Running
        && inst.waitingPlayers == old(inst.waitingPlayers)
        && inst.world == old(inst.world) && inst.spawnLocation == old(inst.spawnLocation)
    {
      if instanceId !in activeInstances {
        return false;
      }
      var inst := activeInstances[instanceId];
      if player.id in playerToInstance && playerToInstance[player.id] == instanceId {
        return false;
      }
      if inst.state == Creating {
        inst.AddWaitingPlayer(player.id);
        return true;
      }
      if inst.state != Waiting && inst.state != Running {
        return false;
      }
      if !config.CanPlayerJoinMap(player, inst.mapName) {
        return false;
      }
      if |inst.players| >= config.MaxPlayers() {
        return false;
      }
      inst.AddPlayer(player.id);
      playerToInstance := playerToInstance[player.id := instanceId];
      if inst.state == Waiting {
        inst.SetState(Running);
      }
      return true;
    }

    /** The instance the player is indexed to, as a frame. */
    function IndexedInstance(playerId: Uuid): set<MapInstance>
      reads this
    {
      if playerId in playerToInstance then InstanceAt(playerToInstance[playerId]) else {}
    }

    /** `leaveMap`: the index entry is removed; when the indexed id is still
        registered the player leaves both sets of that instance and their
        timer is reset (when a timer manager exists). An instance left empty
        turns ENDING and a teardown timer is scheduled, answered here. */
    method LeaveMap(playerId: Uuid, timers: Timers.TimerManager?) returns (teardown: Option<Teardown>)
      requires timers != null ==> timers.Valid()
      modifies this`playerToInstance, IndexedInstance(playerId), timers
      ensures timers != null ==> timers.Valid()
      ensures playerToInstance == old(playerToInstance) - {playerId}
      ensures playerId !in old(playerToInstance) || old(playerToInstance)[playerId] !in activeInstances ==>
        && teardown.None?
        && (timers != null ==> unchanged(timers))
        && unchanged(old(IndexedInstance(playerId)))
      ensures playerId in old(playerToInstance) && old(playerToInstance)[playerId] in activeInstances ==>
        var id := old(playerToInstance)[playerId];
        var inst := activeInstances[id];
        && inst.players == old(inst.players) - {playerId}
        && inst.waitingPlayers == old(inst.waitingPlayers) - {playerId}
        && inst.world == old(inst.world) && inst.spawnLocation == old(inst.spawnLocation)
        && inst.state == (if inst.IsEmpty() then Ending else old(inst.state))
        && teardown == (if inst.IsEmpty() then Some(Teardown(id, inst)) else None)
        && (timers != null ==>
          && timers.activeTimers == old(timers.activeTimers) - {playerId}
          && timers.finishedPlayers == old(timers.finishedPlayers) - {playerId}
          && timers.started == old(timers.started) - {playerId})
    {
      if playerId !in playerToInstance {
        return None;
      }
      var id := playerToInstance[playerId];
      playerToInstance := playerToInstance - {playerId};
      if id !in activeInstances {
        return None;
      }
      var inst := activeInstances[id];
      inst.RemovePlayer(playerId);
      if timers != null {
        timers.ResetPlayer(playerId);
      }
      if inst.players == {} && inst.waitingPlayers == {} {
        inst.SetState(Ending);
        return Some(Teardown(id, inst));
      }
      return None;
    }

    /** `destroyMap`: removes the registry entry under the id (a no-op for an
        absent id) and, when the removed instance has a world, marks it
        DESTROYING. Index entries that point at the id stay. */
    method DestroyMap(instanceId: string)
      requires Valid()
      modifies this`activeInstances, InstanceAt(instanceId)`state
      ensures Valid()
      ensures activeInstances == old(activeInstances) - {instanceId}
      ensures instanceId in old(activeInstances) ==>
        var inst := old(activeInstances)[instanceId];
        inst.state == if inst.world.Some? then Destroying else old(inst.state)
    {
      if instanceId !in activeInstances {
        return;
      }
      var inst := activeInstances[instanceId];
      activeInstances := activeInstances - {instanceId};
      if inst.world.Some? {
        inst.SetState(Destroying);
      }
    }

    /** The teardown timer fires: if the captured instance is still empty the
        id is destroyed (whatever is registered under it now); otherwise the
        captured instance goes back to RUNNING. */
    method FireTeardown(t: Teardown)
      requires Valid()
      modifies this`activeInstances, t.instance`state, InstanceAt(t.instanceId)`state
      ensures Valid()
      ensures old(t.instance.IsEmpty()) ==>
        && activeInstances == old(activeInstances) - {t.instanceId}
        && (t.instanceId in old(activeInstances) ==>
          var inst := old(activeInstances)[t.instanceId];
          inst.state == if inst.world.Some? then Destroying else old(inst.state))
      ensures old(t.instance.IsEmpty()) && t.instance !in old(InstanceAt(t.instanceId)) ==>
        t.instance.state == old(t.instance.state)
      ensures !old(t.instance.IsEmpty()) ==>
        activeInstances == old(activeInstances) && t.instance.state == Running
      ensures !old(t.instance.IsEmpty()) ==>
        forall i :: i in old(InstanceAt(t.instanceId)) && i != t.instance ==> i.state == old(i.state)
    {
      if t.instance.players == {} && t.instance.waitingPlayers == {} {
        DestroyMap(t.instanceId);
      } else {
        t.instance.SetState(Running);
      }
    }

    /** The no-join timer fires: the captured instance's id is destroyed only
        when the instance is still CREATING or WAITING and nobody is in or
        queued; any other state (ERROR among them) survives. */
    method FireNoJoin(inst: MapInstance)
      requires Valid()
      modifies this`activeInstances, InstanceAt(inst.instanceId)`state
      ensures Valid()
      ensures old(inst.state in {Creating, Waiting} && inst.IsEmpty()) ==>
        && activeInstances == old(activeInstances) - {inst.instanceId}
        && (inst.instanceId in old(activeInstances) ==>
          var victim := old(activeInstances)[inst.instanceId];
          victim.state == if victim.world.Some? then Destroying else old(victim.state))
      ensures !old(inst.state in {Creating, Waiting} && inst.IsEmpty()) ==>
        activeInstances == old(activeInstances) && unchanged(old(InstanceAt(inst.instanceId)))
    {
      if (inst.state == Creating || inst.state == Waiting) && inst.players == {} && inst.waitingPlayers == {} {
        DestroyMap(inst.instanceId);
      }
    }

    /** `cleanup`: destroys exactly the non-public instances; the public ones
        stay registered and untouched. */
    method Cleanup()
      requires Valid()
      modifies this`activeInstances, activeInstances.Values`state
      ensures Valid()
      ensures activeInstances == map id | id in old(activeInstances) && old(activeInstances)[id].isPublic :: old(activeInstances)[id]
      ensures forall id :: id in old(activeInstances) ==>
        var inst := old(activeInstances)[id];
        inst.state == if !inst.isPublic && inst.world.Some? then Destroying else old(inst.state)
    {
      var remaining := activeInstances.Keys;
      while remaining != {}
        invariant Valid()
        invariant remaining <= old(activeInstances).Keys
        invariant forall id :: id in activeInstances ==> id in old(activeInstances) && activeInstances[id] == old(activeInstances)[id]
        invariant forall id :: id in old(activeInstances) ==>
          (id in activeInstances <==> id in remaining || old(activeInstances)[id].isPublic)
        invariant forall id :: id in old(activeInstances) ==>
          var inst := old(activeInstances)[id];
          inst.state == if id !in remaining && !inst.isPublic && inst.world.Some? then Destroying else old(inst.state)
        decreases remaining
      {
        var id :| id in remaining;
        remaining := remaining - {id};
        if !activeInstances[id].isPublic {
          DestroyMap(id);
        }
      }
    }

    /** `getInstance`: an instance found under an id carries that id. */
    function GetInstance(instanceId: string): (r: Option<MapInstance>)
      reads this
      ensures r.Some? <==> instanceId in activeInstances
      ensures Valid() && r.Some? ==> r.value.instanceId == instanceId
    {
      if instanceId in activeInstances then Some(activeInstances[instanceId]) else None
    }

    /** `getPlayerInstance`: the id the player is indexed to, if any. */
    function GetPlayerInstance(playerId: Uuid): (r: Option<string>)
      reads this
      ensures r.Some? <==> playerId in playerToInstance
      ensures r.Some? ==> playerToInstance[playerId] == r.value
    {
      if playerId in playerToInstance then Some(playerToInstance[playerId]) else None
    }

    /** `getActiveInstances`: a copy of the registry (maps are values). */
    function GetActiveInstances(): (r: map<string, MapInstance>)
      reads this
      ensures r.Keys == activeInstances.Keys
      ensures Valid() ==> forall id :: id in r ==> r[id].instanceId == id
    {
      activeInstances
    }
  }
}
