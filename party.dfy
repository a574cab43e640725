/** Party: a group of players under a leader, identified by a code. The code
    and the leader are fixed; the member set and the current map change in
    place. */
module PartyModel {
  import opened Common

  class Party {
    const code: string
    const leader: Uuid
    var members: set<Uuid>
    /** the id of the instance the party was last sent to */
    var currentMap: Option<string>

    /** A new party holds exactly its leader and has no map yet. */
    constructor (code: string, leader: Uuid)
      ensures this.code == code && this.leader == leader
      ensures members == {leader} && currentMap.None?
    {
      this.code := code;
      this.leader := leader;
      members := {leader};
      currentMap := None;
    }

    /** `getMembers`: a copy (sets are values). */
    function Members(): (r: set<Uuid>)
      reads this
      ensures forall p :: p in r <==> p in members
    {
      members
    }

    /** `addMember`: a set insertion; the current map is not touched. */
    method AddMember(p: Uuid)
      modifies this`members
      ensures members == old(members) + {p}
      ensures p in old(members) ==> members == old(members)
    {
      members := members + {p};
    }

    /** `removeMember`: a set deletion; removing a non-member changes nothing. */
    method RemoveMember(p: Uuid)
      modifies this`members
      ensures members == old(members) - {p}
      ensures p !in old(members) ==> members == old(members)
    {
      members := members - {p};
    }

    /** `setCurrentMap`; `getCurrentMap` then answers the id. */
    method SetCurrentMap(instanceId: string)
      modifies this`currentMap
      ensures CurrentMap() == Some(instanceId)
    {
      currentMap := Some(instanceId);
    }

    /** `getCurrentMap`: None until a map was set (Java's null). */
    function CurrentMap(): (r: Option<string>)
      reads this
      ensures r.Some? <==> currentMap.Some?
      ensures r.Some? ==> r.value == currentMap.value
    {
      currentMap
    }
  }
}
