/** FriendManager: a symmetric friendship relation, pending friend requests
    and requests to join a friend's map, each a map from player to a set of
    players. Loading and saving `friends.yml` are left out, and so are the
    chat messages. */
module Friends {
  import opened Common
  import opened Maps

  /** `a` lists `b` as a friend exactly when `b` lists `a`. */
  ghost predicate SymmetricRel(f: map<Uuid, set<Uuid>>) {
    forall a, b :: b in SetAt(f, a) <==> a in SetAt(f, b)
  }

  /** The friendship map after `accepterId` and `requesterId` were added to
      each other's sets (`computeIfAbsent(..).add(..)` twice). */
  function Befriend(f: map<Uuid, set<Uuid>>, a: Uuid, b: Uuid): (r: map<Uuid, set<Uuid>>)
    ensures b in SetAt(r, a) && a in SetAt(r, b)
    ensures forall x :: x != a && x != b ==> SetAt(r, x) == SetAt(f, x)
  {
    var f1 := f[a := SetAt(f, a) + {b}];
    f1[b := SetAt(f1, b) + {a}]
  }

  /** The friendship map after `removeFriend(a, b)`: `b` leaves `a`'s set and,
      when `b` has a set, `a` leaves it. */
  function Unfriend(f: map<Uuid, set<Uuid>>, a: Uuid, b: Uuid): (r: map<Uuid, set<Uuid>>)
    requires a in f
    ensures b !in SetAt(r, a)
    ensures forall x :: x != a && x != b ==> SetAt(r, x) == SetAt(f, x)
  {
    var f1 := f[a := f[a] - {b}];
    if b in f then f1[b := f1[b] - {a}] else f1
  }

  lemma BefriendKeepsSymmetry(f: map<Uuid, set<Uuid>>, a: Uuid, b: Uuid)
    requires SymmetricRel(f)
    ensures SymmetricRel(Befriend(f, a, b))
  {
    var r := Befriend(f, a, b);
    forall x, y ensures y in SetAt(r, x) <==> x in SetAt(r, y) {
      assert y in SetAt(f, x) <==> x in SetAt(f, y);
    }
  }

  lemma UnfriendKeepsSymmetry(f: map<Uuid, set<Uuid>>, a: Uuid, b: Uuid)
    requires a in f && SymmetricRel(f)
    ensures SymmetricRel(Unfriend(f, a, b))
  {
    var r := Unfriend(f, a, b);
    assert a in SetAt(f, b) <==> b in SetAt(f, a);
    forall x, y ensures y in SetAt(r, x) <==> x in SetAt(r, y) {
      assert y in SetAt(f, x) <==> x in SetAt(f, y);
    }
  }

  /** As coded, a player who sends the same friend request twice becomes
      friends with its target, although the target never accepted. */
  method RepeatedRequestBefriends(maps: MapManager, a: Uuid, b: Uuid) returns (fm: FriendManager)
    ensures fm.AreFriends(a, b) && fm.AreFriends(b, a)
  {
    fm := new FriendManager(maps);
    var ok := fm.SendFriendRequest(a, b);
    ok := fm.SendFriendRequest(a, b);
  }

  /** With the intended check, the same two requests only leave the request
      pending; the two become friends once the target asks back. */
  method RepeatedRequestStaysPending(maps: MapManager, a: Uuid, b: Uuid) returns (fm: FriendManager)
    requires a != b
    ensures !fm.AreFriends(a, b) && !fm.AreFriends(b, a) && fm.HasPendingRequest(b, a)
  {
    fm := new FriendManager(maps);
    var ok := fm.SendFriendRequestIntended(a, b);
    ok := fm.SendFriendRequestIntended(a, b);
    fm.AreFriendsSymmetric(a, b);
  }

  /** With the intended check, a request from each side makes them friends. */
  method MutualRequestsBefriend(maps: MapManager, a: Uuid, b: Uuid) returns (fm: FriendManager)
    requires a != b
    ensures fm.AreFriends(a, b) && fm.AreFriends(b, a)
  {
    fm := new FriendManager(maps);
    var ok := fm.SendFriendRequestIntended(a, b);
    ok := fm.SendFriendRequestIntended(b, a);
  }

  class FriendManager {
    /** the plugin's map manager, which the join-request methods consult */
    const maps: MapManager
    var friendships: map<Uuid, set<Uuid>>
    var pendingRequests: map<Uuid, set<Uuid>>
    /** friend -> players asking to join the friend's map */
    var joinRequests: map<Uuid, set<Uuid>>

    ghost predicate Valid()
      reads this
    {
      SymmetricRel(friendships)
    }

    constructor (maps: MapManager)
      ensures Valid() && this.maps == maps
      ensures friendships == map[] && pendingRequests == map[] && joinRequests == map[]
    {
      this.maps := maps;
      friendships := map[];
      pendingRequests := map[];
      joinRequests := map[];
    }

    /** `areFriends`: false for a player without a set. */
    function AreFriends(a: Uuid, b: Uuid): (r: bool)
      reads this
      ensures r <==> a in friendships && b in friendships[a]
    {
      b in SetAt(friendships, a)
    }

    /** Friendship reads the same in both directions. */
    lemma AreFriendsSymmetric(a: Uuid, b: Uuid)
      requires Valid()
      ensures AreFriends(a, b) == AreFriends(b, a)
    {
      assert b in SetAt(friendships, a) <==> a in SetAt(friendships, b);
    }

    /** `hasPendingRequest(target, sender)`: false for a target without a set. */
    function HasPendingRequest(target: Uuid, sender: Uuid): (r: bool)
      reads this
      ensures r <==> target in pendingRequests && sender in pendingRequests[target]
    {
      sender in SetAt(pendingRequests, target)
    }

    /** `getFriends`, `getPendingRequests`, `getJoinRequests`: copies (sets
        are values), empty for a missing key. */
    function GetFriends(p: Uuid): (r: set<Uuid>)
      reads this
      ensures forall q :: q in r <==> AreFriends(p, q)
    {
      SetAt(friendships, p)
    }

    function GetPendingRequests(p: Uuid): (r: set<Uuid>)
      reads this
      ensures forall q :: q in r <==> HasPendingRequest(p, q)
    {
      SetAt(pendingRequests, p)
    }

    function GetJoinRequests(p: Uuid): (r: set<Uuid>)
      reads this
      ensures p !in joinRequests ==> r == {}
      ensures p in joinRequests ==> r == joinRequests[p]
    {
      SetAt(joinRequests, p)
    }

    /** `acceptFriendRequest`: succeeds only on a pending request from the
        requester, which it consumes, and makes the two friends both ways. */
    method AcceptFriendRequest(accepter: Uuid, requester: Uuid) returns (ok: bool)
      requires Valid()
      modifies this
      ensures Valid()
      ensures ok <==> old(HasPendingRequest(accepter, requester))
      ensures !ok ==> unchanged(this)
      ensures ok ==>
        && pendingRequests == old(pendingRequests)[accepter := old(pendingRequests)[accepter] - {requester}]
        && friendships == Befriend(old(friendships), accepter, requester)
        && joinRequests == old(joinRequests)
      ensures ok ==> AreFriends(accepter, requester) && AreFriends(requester, accepter)
    {
      if accepter !in pendingRequests || requester !in pendingRequests[accepter] {
        return false;
      }
      pendingRequests := pendingRequests[accepter := pendingRequests[accepter] - {requester}];
      BefriendKeepsSymmetry(friendships, accepter, requester);
      friendships := Befriend(friendships, accepter, requester);
      return true;
    }

    /** `sendFriendRequest`: refused between friends. When the target's
        pending set already holds the sender (a repeated request) it is
        accepted on the target's behalf and the two become friends; otherwise
        the sender is recorded in the target's pending set. */
    method SendFriendRequest(sender: Uuid, target: Uuid) returns (ok: bool)
      requires Valid()
      modifies this
      ensures Valid()
      ensures ok <==> !old(AreFriends(sender, target))
      ensures !ok ==> unchanged(this)
      ensures ok && old(HasPendingRequest(target, sender)) ==>
        && pendingRequests == old(pendingRequests)[target := old(pendingRequests)[target] - {sender}]
        && friendships == Befriend(old(friendships), target, sender)
        && AreFriends(sender, target)
      ensures ok && !old(HasPendingRequest(target, sender)) ==>
        && pendingRequests == old(pendingRequests)[target := SetAt(old(pendingRequests), target) + {sender}]
        && friendships == old(friendships)
        && HasPendingRequest(target, sender)
      ensures joinRequests == old(joinRequests)
    {
      if AreFriends(sender, target) {
        return false;
      }
      if HasPendingRequest(target, sender) {
        ok := AcceptFriendRequest(target, sender);
        AreFriendsSymmetric(target, sender);
        return true;
      }
      pendingRequests := pendingRequests[target := SetAt(pendingRequests, target) + {sender}];
      return true;
    }

    /** `sendFriendRequest` as the comment at FriendManager.java:82 intends:
        when the target has already asked the sender, the sender's request
        accepts that one; otherwise the sender is recorded as pending. */
    method SendFriendRequestIntended(sender: Uuid, target: Uuid) returns (ok: bool)
      requires Valid()
      modifies this
      ensures Valid()
      ensures ok <==> !old(AreFriends(sender, target))
      ensures !ok ==> unchanged(this)
      ensures ok && old(HasPendingRequest(sender, target)) ==>
        && pendingRequests == old(pendingRequests)[sender := old(pendingRequests)[sender] - {target}]
        && friendships == Befriend(old(friendships), sender, target)
        && AreFriends(sender, target)
      ensures ok && !old(HasPendingRequest(sender, target)) ==>
        && pendingRequests == old(pendingRequests)[target := SetAt(old(pendingRequests), target) + {sender}]
        && friendships == old(friendships)
        && HasPendingRequest(target, sender)
      ensures AreFriends(sender, target) ==> old(AreFriends(sender, target)) || old(HasPendingRequest(sender, target))
      ensures joinRequests == old(joinRequests)
    {
      if AreFriends(sender, target) {
        return false;
      }
      if HasPendingRequest(sender, target) {
        ok := AcceptFriendRequest(sender, target);
        return true;
      }
      pendingRequests := pendingRequests[target := SetAt(pendingRequests, target) + {sender}];
      return true;
    }

    /** `removeFriend`: fails unless the two are friends; otherwise the
        friendship goes in both directions. */
    method RemoveFriend(player: Uuid, friendId: Uuid) returns (ok: bool)
      requires Valid()
      modifies this
      ensures Valid()
      ensures ok <==> old(AreFriends(player, friendId))
      ensures !ok ==> unchanged(this)
      ensures ok ==> friendships == Unfriend(old(friendships), player, friendId)
      ensures ok ==> !AreFriends(player, friendId) && !AreFriends(friendId, player)
      ensures pendingRequests == old(pendingRequests) && joinRequests == old(joinRequests)
    {
      if player !in friendships || friendId !in friendships[player] {
        return false;
      }
      UnfriendKeepsSymmetry(friendships, player, friendId);
      friendships := Unfriend(friendships, player, friendId);
      AreFriendsSymmetric(player, friendId);
      return true;
    }

    /** `sendJoinRequest`: only to a friend who is indexed to a map. */
    method SendJoinRequest(requester: Uuid, friend: Uuid) returns (ok: bool)
      modifies this`joinRequests
      ensures ok <==> old(AreFriends(requester, friend)) && friend in maps.playerToInstance
      ensures ok ==> joinRequests == old(joinRequests)[friend := SetAt(old(joinRequests), friend) + {requester}]
      ensures !ok ==> joinRequests == old(joinRequests)
    {
      if !AreFriends(requester, friend) {
        return false;
      }
      var instanceId := maps.GetPlayerInstance(friend);
      if instanceId.None? {
        return false;
      }
      joinRequests := joinRequests[friend := SetAt(joinRequests, friend) + {requester}];
      return true;
    }

    /** `acceptJoinRequest`: the requester is looked up among the online
        players (None: not online). A pending request is consumed before the
        accepter's own map is checked, so it is gone even when the accepter
        has left every map; then the requester joins the accepter's map. */
    method AcceptJoinRequest(accepter: Uuid, requester: Option<Player>) returns (ok: bool)
      modifies this`joinRequests, maps`playerToInstance, maps.IndexedInstance(accepter)
      ensures requester.None? || requester.value.id !in old(SetAt(joinRequests, accepter)) ==>
        && !ok && joinRequests == old(joinRequests)
        && maps.playerToInstance == old(maps.playerToInstance) && unchanged(old(maps.IndexedInstance(accepter)))
      ensures requester.Some? && requester.value.id in old(SetAt(joinRequests, accepter)) ==>
        joinRequests == old(joinRequests)[accepter := old(joinRequests)[accepter] - {requester.value.id}]
      ensures requester.Some? && requester.value.id in old(SetAt(joinRequests, accepter)) ==>
        ok == (accepter in old(maps.playerToInstance)
          && old(maps.Decision(requester.value, maps.playerToInstance[accepter])) in {Queued, Joined})
      ensures !ok ==> maps.playerToInstance == old(maps.playerToInstance) && unchanged(old(maps.IndexedInstance(accepter)))
      ensures ok ==> (maps.playerToInstance ==
        if old(maps.Decision(requester.value, maps.playerToInstance[accepter])) == Joined
        then old(maps.playerToInstance)[requester.value.id := old(maps.playerToInstance[accepter])]
        else old(maps.playerToInstance))
    {
      if requester.None? {
        return false;
      }
      var r := requester.value;
      if accepter !in joinRequests || r.id !in joinRequests[accepter] {
        return false;
      }
      joinRequests := joinRequests[accepter := joinRequests[accepter] - {r.id}];
      var instanceId := maps.GetPlayerInstance(accepter);
      if instanceId.None? {
        return false;
      }
      ok := maps.JoinMap(r, instanceId.value);
    }
  }
}
