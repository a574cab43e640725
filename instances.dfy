/** MapInstance: one running copy of a parkour map. Its identity is fixed at
    construction; its world, spawn point, lifecycle state and the two player
    sets change in place. */
module Instances {
  import opened Common

  /** The lifecycle states of an instance. */
  datatype MapState = Creating | Waiting | Running | Ending | Error | Destroying

  /** A loaded server world, known to the plugin only by its name. */
  datatype World = World(name: string)

  class MapInstance {
    const instanceId: string
    const mapName: string
    const isPublic: bool
    /** the clock reading at construction */
    const createdAt: int
    var world: Option<World>
    var spawnLocation: Option<Location>
    var state: MapState
    /** players admitted to the instance */
    var players: set<Uuid>
    /** players queued while the instance is still being created */
    var waitingPlayers: set<Uuid>

    /** A new instance is CREATING, has no world or spawn yet and nobody in
        either set. */
    constructor (instanceId: string, mapName: string, isPublic: bool, now: int)
      ensures this.instanceId == instanceId && this.mapName == mapName
      ensures this.isPublic == isPublic && createdAt == now
      ensures world.None? && spawnLocation.None?
      ensures state == Creating && players == {} && waitingPlayers == {}
    {
      this.instanceId := instanceId;
      this.mapName := mapName;
      this.isPublic := isPublic;
      createdAt := now;
      world := None;
      spawnLocation := None;
      state := Creating;
      players := {};
      waitingPlayers := {};
    }

    /** Both sets are empty: the condition every teardown checks. */
    predicate IsEmpty()
      reads this
    {
      players == {} && waitingPlayers == {}
    }

    method SetWorld(w: World)
      modifies this`world
      ensures world == Some(w)
    {
      world := Some(w);
    }

    method SetSpawnLocation(l: Location)
      modifies this`spawnLocation
      ensures spawnLocation == Some(l)
    {
      spawnLocation := Some(l);
    }

    method SetState(s: MapState)
      modifies this`state
      ensures state == s
    {
      state := s;
    }

    /** `addPlayer`: a set insertion into `players` only; adding a present
        player changes nothing. */
    method AddPlayer(p: Uuid)
      modifies this`players
      ensures players == old(players) + {p}
      ensures p in old(players) ==> players == old(players)
    {
      players := players + {p};
    }

    /** `removePlayer`: the player leaves both sets. */
    method RemovePlayer(p: Uuid)
      modifies this`players, this`waitingPlayers
      ensures players == old(players) - {p} && waitingPlayers == old(waitingPlayers) - {p}
      ensures p !in players && p !in waitingPlayers
    {
      players := players - {p};
      waitingPlayers := waitingPlayers - {p};
    }

    /** `addWaitingPlayer`: a set insertion into `waitingPlayers` only. */
    method AddWaitingPlayer(p: Uuid)
      modifies this`waitingPlayers
      ensures waitingPlayers == old(waitingPlayers) + {p}
      ensures p in old(waitingPlayers) ==> waitingPlayers == old(waitingPlayers)
    {
      waitingPlayers := waitingPlayers + {p};
    }

    /** `clearWaitingPlayers`: `players` is not touched. */
    method ClearWaitingPlayers()
      modifies this`waitingPlayers
      ensures waitingPlayers == {}
    {
      waitingPlayers := {};
    }
  }
}
