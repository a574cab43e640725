/** PartyManager: the party registry (code -> party), the player -> party
    index, party invites, requests to join a friend's party and the party-chat
    toggle. The delayed tasks (the member warp after a party map starts, the
    expiry of an invite or a join request) are explicit methods the scheduler
    may call at any later time. Chat messages are left out; `NotifyParty`
    answers who would receive one. */
module Parties {
  import opened Common
  import opened Config
  import opened Instances
  import opened Maps
  import opened Friends
  import opened PartyModel
  import Entries

  /** `String.format("%04d", n)`: four decimal digits, zero padded. */
  function PartyCode(n: nat): (code: string)
    requires n < 10000
    ensures |code| == 4
    ensures n < 1000 ==> code[0] == '0'
    ensures n < 100 ==> code[..2] == "00"
    ensures n < 10 ==> code[..3] == "000"
  {
    [Entries.DigitChar(n / 1000), Entries.DigitChar(n / 100 % 10),
     Entries.DigitChar(n / 10 % 10), Entries.DigitChar(n % 10)]
  }

  /** The number four decimal digits spell. */
  function CodeValue(code: string): int
    requires |code| == 4
  {
    (code[0] as int - '0' as int) * 1000 + (code[1] as int - '0' as int) * 100
      + (code[2] as int - '0' as int) * 10 + (code[3] as int - '0' as int)
  }

  predicate IsPartyCode(code: string) {
    |code| == 4 && forall i :: 0 <= i < 4 ==> Entries.IsDigit(code[i])
  }

  /** A party code is four digits and spells the number drawn, so distinct
      draws give distinct codes. */
  lemma PartyCodeReadsBack(n: nat)
    requires n < 10000
    ensures IsPartyCode(PartyCode(n))
    ensures CodeValue(PartyCode(n)) == n
  {
    var a, b, c, d := n / 1000, n / 100 % 10, n / 10 % 10, n % 10;
    assert n / 100 == a * 10 + b;
    assert n / 10 == (a * 10 + b) * 10 + c;
    assert n == ((a * 10 + b) * 10 + c) * 10 + d;
  }

  lemma PartyCodeInjective(m: nat, n: nat)
    requires m < 10000 && n < 10000 && PartyCode(m) == PartyCode(n)
    ensures m == n
  {
    PartyCodeReadsBack(m);
    PartyCodeReadsBack(n);
  }

  /** `v` added to the set stored under `k` (`computeIfAbsent(k).add(v)`). */
  function Offered(m: map<Uuid, set<Uuid>>, k: Uuid, v: Uuid): (r: map<Uuid, set<Uuid>>)
    ensures r.Keys == m.Keys + {k}
    ensures v in r[k]
  {
    m[k := SetAt(m, k) + {v}]
  }

  /** `v` removed from the set stored under `k`, when there is one. */
  function Withdrawn(m: map<Uuid, set<Uuid>>, k: Uuid, v: Uuid): (r: map<Uuid, set<Uuid>>)
    ensures r.Keys == m.Keys
    ensures v !in SetAt(r, k)
  {
    if k in m then m[k := m[k] - {v}] else m
  }

  /** An expiry undoes the offer it belongs to, leaving the other offers
      under the same key and every other key alone. */
  lemma {:induction false} WithdrawUndoesOffer(m: map<Uuid, set<Uuid>>, k: Uuid, v: Uuid)
    requires v !in SetAt(m, k)
    ensures SetAt(Withdrawn(Offered(m, k, v), k, v), k) == SetAt(m, k)
    ensures forall j :: j != k ==> SetAt(Withdrawn(Offered(m, k, v), k, v), j) == SetAt(m, j)
  {
    assert SetAt(m, k) + {v} - {v} == SetAt(m, k);
  }

  /** `togglePartyChat` on the toggle set. */
  function Toggle(s: set<Uuid>, p: Uuid): (r: set<Uuid>)
    ensures p in r <==> p !in s
    ensures forall q :: q != p ==> (q in r <==> q in s)
  {
    if p in s then s - {p} else s + {p}
  }

  lemma {:induction false} ToggleTwice(s: set<Uuid>, p: Uuid)
    ensures Toggle(Toggle(s, p), p) == s
  {
    assert forall q :: q in Toggle(Toggle(s, p), p) <==> q in s;
  }

  /** The online-player table: each player is filed under their own id. */
  predicate WellKeyed(online: map<Uuid, Player>) {
    forall k :: k in online ==> online[k].id == k
  }

  /** The warp scheduled by `startPartyMap`: the instance id, the party
      object the task captured, and the new instance handed to provisioning. */
  datatype PartyWarp = PartyWarp(instanceId: string, party: Party, provisioning: MapInstance)

  class PartyManager {
    const maps: MapManager
    const config: ConfigManager
    const friends: FriendManager
    var parties: map<string, Party>
    var playerToParty: map<Uuid, string>
    /** invited player -> leaders who invited them */
    var invites: map<Uuid, set<Uuid>>
    /** party member -> players asking to join their party */
    var joinRequests: map<Uuid, set<Uuid>>
    var partyChatToggled: set<Uuid>

    /** Each party is filed under its own code and contains its leader; the
        index and the member sets agree in both directions, so a player is in
        at most one party. */
    ghost predicate Valid()
      reads this, parties.Values
    {
      && (forall c :: c in parties ==> parties[c].code == c && parties[c].leader in parties[c].members)
      && (forall p :: p in playerToParty ==>
            playerToParty[p] in parties && p in parties[playerToParty[p]].members)
      && (forall c, m :: c in parties && m in parties[c].members ==>
            m in playerToParty && playerToParty[m] == c)
    }

    constructor (maps: MapManager, config: ConfigManager, friends: FriendManager)
      ensures Valid()
      ensures this.maps == maps && this.config == config && this.friends == friends
      ensures parties == map[] && playerToParty == map[]
      ensures invites == map[] && joinRequests == map[] && partyChatToggled == {}
    {
      this.maps := maps;
      this.config := config;
      this.friends := friends;
      parties := map[];
      playerToParty := map[];
      invites := map[];
      joinRequests := map[];
      partyChatToggled := {};
    }

    /** The party registered under `code`, as a frame. */
    function PartyAt(code: string): set<Party>
      reads this
    {
      if code in parties then {parties[code]} else {}
    }

    /** The party the player is indexed to, as a frame. */
    function IndexedParty(p: Uuid): set<Party>
      reads this
    {
      if p in playerToParty then PartyAt(playerToParty[p]) else {}
    }

    /** A free code exists: `generatePartyCode` draws until it hits one. */
    predicate HasFreeCode()
      reads this
    {
      exists n: nat :: n < 10000 && PartyCode(n) !in parties
    }

    /** `generatePartyCode`: a four-digit code no party holds. The retry loop
        over random draws is one choice among the free codes. */
    method GeneratePartyCode() returns (code: string)
      requires HasFreeCode()
      ensures IsPartyCode(code) && code !in parties
    {
      var n: nat :| n < 10000 && PartyCode(n) !in parties;
      PartyCodeReadsBack(n);
      code := PartyCode(n);
    }

    /** `createParty`: refused (None) for a player already in a party;
        otherwise a fresh party led by the player is filed under a new code. */
    method CreateParty(leader: Uuid) returns (code: Option<string>)
      requires Valid()
      requires leader !in playerToParty ==> HasFreeCode()
      modifies this`parties, this`playerToParty
      ensures Valid()
      ensures leader in old(playerToParty) ==>
        code.None? && parties == old(parties) && playerToParty == old(playerToParty)
      ensures leader !in old(playerToParty) ==>
        && code.Some? && IsPartyCode(code.value) && code.value !in old(parties)
        && code.value in parties && fresh(parties[code.value])
        && parties == old(parties)[code.value := parties[code.value]]
        && parties[code.value].leader == leader && parties[code.value].members == {leader}
        && parties[code.value].currentMap.None?
        && playerToParty == old(playerToParty)[leader := code.value]
    {
      if leader in playerToParty {
        return None;
      }
      var c := GeneratePartyCode();
      var party := new Party(c, leader);
      parties := parties[c := party];
      playerToParty := playerToParty[leader := c];
      code := Some(c);
    }

    /** What `joinParty` checks: the party exists, is below the configured
        player limit, and the player is in no party. */
    predicate JoinAllowed(player: Uuid, code: string)
      reads this, parties.Values, config
    {
      && code in parties
      && |parties[code].members| < config.MaxPlayers()
      && player !in playerToParty
    }

    /** `joinParty`: the player becomes a member and is indexed to the party
        exactly when joining is allowed; a refusal changes nothing. */
    method JoinParty(player: Uuid, code: string) returns (joined: bool)
      requires Valid()
      modifies this`playerToParty, PartyAt(code)
      ensures Valid()
      ensures joined <==> old(JoinAllowed(player, code))
      ensures joined ==>
        && parties[code].members == old(parties[code].members) + {player}
        && |parties[code].members| <= config.MaxPlayers()
        && parties[code].currentMap == old(parties[code].currentMap)
        && playerToParty == old(playerToParty)[player := code]
      ensures !joined ==> playerToParty == old(playerToParty) && unchanged(PartyAt(code))
    {
      if code !in parties {
        return false;
      }
      var party := parties[code];
      if |party.members| >= config.MaxPlayers() {
        return false;
      }
      if player in playerToParty {
        return false;
      }
      party.AddMember(player);
      playerToParty := playerToParty[player := code];
      return true;
    }

    /** `disbandParty`: the party leaves the registry and each of its
        members leaves the index (a loop over a copy of the member set). */
    method DisbandParty(code: string)
      modifies this`parties, this`playerToParty
      ensures code !in old(parties) ==> parties == old(parties) && playerToParty == old(playerToParty)
      ensures code in old(parties) ==>
        && parties == old(parties) - {code}
        && playerToParty == old(playerToParty) - old(parties[code].members)
      ensures old(Valid()) ==> Valid()
    {
      if code !in parties {
        return;
      }
      var party := parties[code];
      parties := parties - {code};
      var remaining := party.Members();
      while remaining != {}
        invariant remaining <= party.members
        invariant parties == old(parties) - {code}
        invariant playerToParty == old(playerToParty) - (party.members - remaining)
        decreases remaining
      {
        var m :| m in remaining;
        playerToParty := playerToParty - {m};
        remaining := remaining - {m};
      }
      if old(Valid()) {
        DisbandKeepsValid(code, old(playerToParty), party.members);
      }
    }

    /** `disbandParty` keeps the invariant: the only index entries naming the
        party are its members'. */
    lemma DisbandKeepsValid(code: string, before: map<Uuid, string>, members: set<Uuid>)
      requires code !in parties
      requires forall p :: p in before && p !in members ==> before[p] != code
      requires playerToParty == before - members
      requires forall c :: c in parties ==> parties[c].code == c && parties[c].leader in parties[c].members
      requires forall p :: p in before && p !in members ==>
        before[p] in parties && p in parties[before[p]].members
      requires forall c, m :: c in parties && m in parties[c].members ==> m in before && before[m] == c && m !in members
      ensures Valid()
    {
    }

    /** `leaveParty`: the player leaves the index and their party's member
        set. When the leader leaves (or, equivalently under the invariant,
        the party is left empty) the party is disbanded and every remaining
        member leaves the index; otherwise only the player goes. */
    method LeaveParty(player: Uuid)
      requires Valid()
      modifies this`parties, this`playerToParty, IndexedParty(player)
      ensures Valid()
      ensures player !in old(playerToParty) ==> parties == old(parties) && playerToParty == old(playerToParty)
      ensures player in old(playerToParty) ==>
        var c := old(playerToParty[player]);
        var party := old(parties[c]);
        && party.members == old(party.members) - {player}
        && (if player == party.leader
            then parties == old(parties) - {c} && playerToParty == old(playerToParty) - old(party.members)
            else parties == old(parties) && playerToParty == old(playerToParty) - {player})
      ensures player !in playerToParty
    {
      if player !in playerToParty {
        return;
      }
      var code := playerToParty[player];
      ghost var before := playerToParty;
      ghost var oldMembers := parties[code].members;
      playerToParty := playerToParty - {player};
      var party := parties[code];
      party.RemoveMember(player);
      if party.members == {} || party.leader == player {
        assert party.leader in oldMembers;
        DisbandParty(code);
        assert playerToParty == before - oldMembers;
        DisbandKeepsValid(code, before, oldMembers);
      }
    }

    /** `kickMember`: only the leader kicks, only an online member (`target`
        is the server's lookup by name, None when offline), never the leader
        themself; the target leaves the member set and the index. */
    method KickMember(leader: Uuid, target: Option<Uuid>) returns (kicked: bool)
      requires Valid()
      modifies this`playerToParty, IndexedParty(leader)
      ensures Valid()
      ensures kicked <==> old(
        && leader in playerToParty
        && parties[playerToParty[leader]].leader == leader
        && target.Some? && target.value in parties[playerToParty[leader]].members
        && target.value != leader)
      ensures kicked ==>
        var c := old(playerToParty[leader]);
        && parties[c].members == old(parties[c].members) - {target.value}
        && playerToParty == old(playerToParty) - {target.value}
      ensures !kicked ==> playerToParty == old(playerToParty) && unchanged(old(IndexedParty(leader)))
    {
      if leader !in playerToParty {
        return false;
      }
      var code := playerToParty[leader];
      var party := parties[code];
      if party.leader != leader {
        return false;
      }
      if target.None? {
        return false;
      }
      var t := target.value;
      if t !in party.members {
        return false;
      }
      if t == leader {
        return false;
      }
      assert playerToParty[t] == code;
      party.RemoveMember(t);
      playerToParty := playerToParty - {t};
      return true;
    }

    /** `startPartyMap`: only the leader starts a map. A party instance is
        created for the party's code, recorded as the party's current map,
        and a warp of the members is scheduled (answered here). */
    method StartPartyMap(leader: Uuid, mapName: string, now: int) returns (warp: Option<PartyWarp>)
      requires Valid() && maps.Valid()
      modifies maps`activeInstances, IndexedParty(leader)
      ensures Valid() && maps.Valid()
      ensures warp.Some? <==> old(leader in playerToParty && parties[playerToParty[leader]].leader == leader)
      ensures warp.None? ==>
        maps.activeInstances == old(maps.activeInstances) && unchanged(old(IndexedParty(leader)))
      ensures warp.Some? ==>
        var c := playerToParty[leader];
        && warp.value.party == parties[c]
        && warp.value.instanceId == PartyId(mapName, c)
        && parties[c].CurrentMap() == Some(warp.value.instanceId)
        && parties[c].members == old(parties[c].members)
        && fresh(warp.value.provisioning)
        && maps.activeInstances == old(maps.activeInstances)[warp.value.instanceId := warp.value.provisioning]
        && JustCreated(warp.value.provisioning, warp.value.instanceId, mapName, false, now)
    {
      if leader !in playerToParty {
        return None;
      }
      var code := playerToParty[leader];
      var party := parties[code];
      if party.leader != leader {
        return None;
      }
      var instanceId, provisioning := maps.CreatePartyMap(mapName, code, now);
      party.SetCurrentMap(instanceId);
      warp := Some(PartyWarp(instanceId, party, provisioning));
    }

    /** The delayed warp: every member of the captured party (its members at
        the time the task runs) who is online is sent through `joinMap`.
        Answers the members `joinMap` accepted (queued or admitted); only
        they can have moved in the map index, and only to this instance. */
    method FirePartyWarp(w: PartyWarp, online: map<Uuid, Player>) returns (joined: set<Uuid>)
      requires WellKeyed(online)
      modifies maps`playerToInstance, maps.InstanceAt(w.instanceId)
      ensures joined <= w.party.members && joined <= online.Keys
      ensures w.instanceId !in maps.activeInstances ==>
        joined == {} && maps.playerToInstance == old(maps.playerToInstance)
      ensures old(maps.playerToInstance).Keys <= maps.playerToInstance.Keys
      ensures forall q :: q in maps.playerToInstance ==>
        if q in joined && (q !in old(maps.playerToInstance) || maps.playerToInstance[q] != old(maps.playerToInstance)[q])
        then maps.playerToInstance[q] == w.instanceId
        else q in old(maps.playerToInstance) && maps.playerToInstance[q] == old(maps.playerToInstance)[q]
    {
      var remaining := w.party.Members();
      joined := {};
      while remaining != {}
        invariant remaining <= w.party.members
        invariant joined <= (w.party.members - remaining) * online.Keys
        invariant maps.activeInstances == old(maps.activeInstances)
        invariant w.instanceId !in maps.activeInstances ==>
          joined == {} && maps.playerToInstance == old(maps.playerToInstance)
        invariant old(maps.playerToInstance).Keys <= maps.playerToInstance.Keys
        invariant forall q :: q in maps.playerToInstance ==>
          if q in joined && (q !in old(maps.playerToInstance) || maps.playerToInstance[q] != old(maps.playerToInstance)[q])
          then maps.playerToInstance[q] == w.instanceId
          else q in old(maps.playerToInstance) && maps.playerToInstance[q] == old(maps.playerToInstance)[q]
        decreases remaining
      {
        var m :| m in remaining;
        remaining := remaining - {m};
        if m in online {
          var ok := maps.JoinMap(online[m], w.instanceId);
          if ok {
            joined := joined + {m};
          }
        }
      }
    }

    /** `getParty`: the party filed under the code, which carries it. */
    function GetParty(code: string): (r: Option<Party>)
      reads this, parties.Values
      ensures r.Some? <==> code in parties
      ensures Valid() && r.Some? ==> r.value.code == code && r.value.leader in r.value.members
    {
      if code in parties then Some(parties[code]) else None
    }

    /** `getPlayerParty`: under the invariant, the code of the one party the
        player is a member of. */
    function GetPlayerParty(p: Uuid): (r: Option<string>)
      reads this, parties.Values
      ensures r.Some? <==> p in playerToParty
      ensures Valid() && r.Some? ==> r.value in parties && p in parties[r.value].members
      ensures Valid() ==> forall c :: c in parties && p in parties[c].members ==> r == Some(c)
    {
      if p in playerToParty then Some(playerToParty[p]) else None
    }

    /** `notifyParty`: the loop over a copy of the member set reaches the
        members who are online, and nobody else. */
    method NotifyParty(party: Party, online: set<Uuid>) returns (recipients: set<Uuid>)
      ensures recipients == party.members * online
    {
      var remaining := party.Members();
      recipients := {};
      while remaining != {}
        invariant remaining <= party.members
        invariant recipients == (party.members - remaining) * online
        decreases remaining
      {
        var m :| m in remaining;
        if m in online {
          recipients := recipients + {m};
        }
        remaining := remaining - {m};
      }
    }

    /** `invitePlayer`: only a party leader invites, and only a player in no
        party; the invite is added to the target's set and its expiry is
        scheduled (answered: true). */
    method InvitePlayer(sender: Uuid, target: Uuid) returns (invited: bool)
      requires Valid()
      modifies this`invites
      ensures invited <==>
        && sender in playerToParty && parties[playerToParty[sender]].leader == sender
        && target !in playerToParty
      ensures invites == if invited then Offered(old(invites), target, sender) else old(invites)
    {
      if sender !in playerToParty {
        return false;
      }
      var party := parties[playerToParty[sender]];
      if party.leader != sender {
        return false;
      }
      if target in playerToParty {
        return false;
      }
      invites := Offered(invites, target, sender);
      return true;
    }

    /** The invite expiry task: the sender leaves the target's invite set if
        still there. */
    method ExpireInvite(target: Uuid, sender: Uuid)
      modifies this`invites
      ensures invites == Withdrawn(old(invites), target, sender)
      ensures sender !in SetAt(invites, target)
    {
      if target in invites && sender in invites[target] {
        invites := invites[target := invites[target] - {sender}];
      } else if target in invites {
        assert invites[target] - {sender} == invites[target];
      }
    }

    /** `acceptInvite`: `sender` is the server's lookup by name (None:
        offline). Without an invite from the sender nothing happens. The
        invite is consumed in every other case; when the sender is in a party
        the player then tries to join it. */
    method AcceptInvite(player: Uuid, sender: Option<Uuid>) returns (joined: bool)
      requires Valid()
      modifies this`invites, this`playerToParty, if sender.Some? then IndexedParty(sender.value) else {}
      ensures Valid()
      ensures sender.None? || sender.value !in old(SetAt(invites, player)) ==>
        !joined && invites == old(invites) && playerToParty == old(playerToParty)
      ensures sender.Some? && sender.value in old(SetAt(invites, player)) ==>
        && invites == old(invites)[player := old(invites)[player] - {sender.value}]
        && (joined <==> old(sender.value in playerToParty && JoinAllowed(player, playerToParty[sender.value])))
      ensures joined ==>
        var c := old(playerToParty[sender.value]);
        && playerToParty == old(playerToParty)[player := c]
        && parties[c].members == old(parties[c].members) + {player}
      ensures !joined ==> playerToParty == old(playerToParty) && parties == old(parties)
      ensures !joined ==> unchanged(if sender.Some? then old(IndexedParty(sender.value)) else {})
    {
      if sender.None? {
        return false;
      }
      var s := sender.value;
      if player !in invites || s !in invites[player] {
        return false;
      }
      if s !in playerToParty {
        invites := invites[player := invites[player] - {s}];
        return false;
      }
      var code := playerToParty[s];
      invites := invites[player := invites[player] - {s}];
      joined := JoinParty(player, code);
    }

    /** `requestJoin`: a player in no party asks a friend who is in one; the
        request is added to the friend's set and its expiry is scheduled
        (answered: true). */
    method RequestJoin(requester: Uuid, target: Uuid) returns (requested: bool)
      modifies this`joinRequests
      ensures requested <==>
        requester !in playerToParty && target in playerToParty && friends.AreFriends(requester, target)
      ensures joinRequests == if requested then Offered(old(joinRequests), target, requester) else old(joinRequests)
    {
      if requester in playerToParty {
        return false;
      }
      if target !in playerToParty {
        return false;
      }
      if !friends.AreFriends(requester, target) {
        return false;
      }
      joinRequests := Offered(joinRequests, target, requester);
      return true;
    }

    /** The join-request expiry task. */
    method ExpireJoinRequest(target: Uuid, requester: Uuid)
      modifies this`joinRequests
      ensures joinRequests == Withdrawn(old(joinRequests), target, requester)
      ensures requester !in SetAt(joinRequests, target)
    {
      if target in joinRequests && requester in joinRequests[target] {
        joinRequests := joinRequests[target := joinRequests[target] - {requester}];
      } else if target in joinRequests {
        assert joinRequests[target] - {requester} == joinRequests[target];
      }
    }

    /** `acceptJoinRequest`: `requester` is the server's lookup by name. The
        request is kept when the accepter is in no party or does not lead
        it; otherwise it is consumed and the requester tries to join the
        accepter's party. */
    method AcceptJoinRequest(target: Uuid, requester: Option<Uuid>) returns (joined: bool)
      requires Valid()
      modifies this`joinRequests, this`playerToParty, IndexedParty(target)
      ensures Valid()
      ensures !old(
          && requester.Some? && requester.value in SetAt(joinRequests, target)
          && target in playerToParty && parties[playerToParty[target]].leader == target) ==>
        && !joined && joinRequests == old(joinRequests) && playerToParty == old(playerToParty)
        && unchanged(old(IndexedParty(target)))
      ensures old(
          && requester.Some? && requester.value in SetAt(joinRequests, target)
          && target in playerToParty && parties[playerToParty[target]].leader == target) ==>
        && joinRequests == old(joinRequests)[target := old(joinRequests)[target] - {requester.value}]
        && (joined <==> old(JoinAllowed(requester.value, playerToParty[target])))
      ensures joined ==>
        var c := old(playerToParty[target]);
        && playerToParty == old(playerToParty)[requester.value := c]
        && parties[c].members == old(parties[c].members) + {requester.value}
    {
      if requester.None? {
        return false;
      }
      var r := requester.value;
      if target !in joinRequests || r !in joinRequests[target] {
        return false;
      }
      if target !in playerToParty {
        return false;
      }
      var code := playerToParty[target];
      var party := parties[code];
      if party.leader != target {
        return false;
      }
      joinRequests := joinRequests[target := joinRequests[target] - {r}];
      joined := JoinParty(r, code);
    }

    /** `togglePartyChat`; two toggles restore the set (`ToggleTwice`). */
    method TogglePartyChat(p: Uuid)
      modifies this`partyChatToggled
      ensures partyChatToggled == Toggle(old(partyChatToggled), p)
      ensures IsPartyChatEnabled(p) <==> !old(IsPartyChatEnabled(p))
    {
      if p in partyChatToggled {
        partyChatToggled := partyChatToggled - {p};
      } else {
        partyChatToggled := partyChatToggled + {p};
      }
    }

    function IsPartyChatEnabled(p: Uuid): (b: bool)
      reads this
      ensures b <==> p in partyChatToggled
    {
      p in partyChatToggled
    }

    /** `sendPartyChat`: a player in no party gets their toggle switched off
        and nobody hears them; otherwise the online members of their party
        receive the message. */
    method SendPartyChat(sender: Uuid, online: set<Uuid>) returns (recipients: set<Uuid>)
      requires Valid()
      modifies this`partyChatToggled
      ensures sender !in playerToParty ==>
        recipients == {} && partyChatToggled == old(partyChatToggled) - {sender}
      ensures sender in playerToParty ==>
        && recipients == parties[playerToParty[sender]].members * online
        && partyChatToggled == old(partyChatToggled)
      ensures sender in online && sender in playerToParty ==> sender in recipients
    {
      if sender !in playerToParty {
        partyChatToggled := partyChatToggled - {sender};
        return {};
      }
      var party := parties[playerToParty[sender]];
      recipients := NotifyParty(party, online);
    }
  }
}
