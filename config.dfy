/** ConfigManager: typed access to the plugin's configuration, with the coded
    defaults, the map admission rule and the per-player block lists. The YAML
    file itself is a set of optional fields; saving it is left out. */
module Config {
  import opened Common

  const BypassPermission: string := "icedspear.bypass"
  const WildcardMapPermission: string := "icedspear.map.*"
  const PlayerPlaceholder: string := "%player%"

  const DefaultMaxPlayers: int := 10
  const DefaultCleanupDelaySeconds: int := 15
  const DefaultNoJoinCleanupDelaySeconds: int := 60

  /** The permission node for one map; the map name can be read back from it. */
  function MapPermission(mapName: string): (node: string)
    ensures |node| == |mapName| + 14 && node[..14] == "icedspear.map." && node[14..] == mapName
  {
    "icedspear.map." + mapName
  }

  datatype GameMode = Survival | Creative | Adventure | Spectator

  /** The admission rule of `canPlayerJoinMap`, over the values it looks up:
      bypass wins, then a global block, then a personal block, then the map
      permission or the wildcard permission decides. */
  function MayJoin(perms: set<string>, globallyBlocked: bool, blocked: seq<string>, mapName: string): (ok: bool)
    ensures BypassPermission in perms ==> ok
    ensures ok && BypassPermission !in perms ==>
      !globallyBlocked && mapName !in blocked &&
      (MapPermission(mapName) in perms || WildcardMapPermission in perms)
    ensures (!globallyBlocked && mapName !in blocked &&
             (MapPermission(mapName) in perms || WildcardMapPermission in perms)) ==> ok
  {
    if BypassPermission in perms then true
    else if globallyBlocked then false
    else if mapName in blocked then false
    else MapPermission(mapName) in perms || WildcardMapPermission in perms
  }

  predicate NoDuplicates<T(==)>(s: seq<T>) {
    forall i, j :: 0 <= i < j < |s| ==> s[i] != s[j]
  }

  /** `blockMapForPlayer`'s list update: append only when absent. */
  function AddIfAbsent(l: seq<string>, x: string): (r: seq<string>)
    ensures x in r
    ensures forall y :: y in r <==> y in l || y == x
    ensures x in l ==> r == l
    ensures x !in l ==> multiset(r) == multiset(l) + multiset{x}
    ensures NoDuplicates(l) ==> NoDuplicates(r)
  {
    if x in l then l else l + [x]
  }

  /** Java's `List.remove(Object)`: drop the first occurrence, keep the order
      of everything else. */
  function RemoveFirst(l: seq<string>, x: string): (r: seq<string>)
    ensures multiset(r) == multiset(l) - multiset{x}
    ensures |r| == if x in l then |l| - 1 else |l|
    ensures x !in l ==> r == l
  {
    if l == [] then []
    else
      assert l == [l[0]] + l[1..];
      if l[0] == x then l[1..]
      else [l[0]] + RemoveFirst(l[1..], x)
  }

  /** `r` is `l` with its first `x`, found at index `i`, taken out. */
  predicate SplitAtFirst(l: seq<string>, x: string, r: seq<string>, i: int) {
    0 <= i < |l| && l[i] == x && x !in l[..i] && r == l[..i] + l[i+1..]
  }

  /** A split of the tail past a different head is a split of the list, one
      index further on. */
  lemma SplitPastHead(l: seq<string>, x: string, rt: seq<string>, i: int)
    requires l != [] && l[0] != x
    requires SplitAtFirst(l[1..], x, rt, i)
    ensures SplitAtFirst(l, x, [l[0]] + rt, i + 1)
  {
    var t := l[1..];
    assert l[..i+1] == [l[0]] + t[..i];
    assert l[i+2..] == t[i+1..];
    assert l[i+1] == t[i];
  }

  /** The copy removed is the first one: the list splits around it, and the
      entries before and after it keep their order. */
  lemma {:induction false} RemoveFirstSplits(l: seq<string>, x: string)
    ensures x in l ==> exists i :: SplitAtFirst(l, x, RemoveFirst(l, x), i)
  {
    if x in l {
      if l[0] == x {
        assert SplitAtFirst(l, x, RemoveFirst(l, x), 0) by {
          assert l[..0] == [];
        }
      } else {
        assert x in l[1..] by {
          assert l == [l[0]] + l[1..];
        }
        RemoveFirstSplits(l[1..], x);
        var i :| SplitAtFirst(l[1..], x, RemoveFirst(l[1..], x), i);
        SplitPastHead(l, x, RemoveFirst(l[1..], x), i);
        assert RemoveFirst(l, x) == [l[0]] + RemoveFirst(l[1..], x);
      }
    }
  }

  /** Unblocking from a list without duplicates removes the map entirely. */
  lemma {:induction false} RemoveFirstFromDistinct(l: seq<string>, x: string)
    requires NoDuplicates(l)
    ensures x !in RemoveFirst(l, x)
  {
    if l != [] {
      assert NoDuplicates(l[1..]) by {
        forall i, j | 0 <= i < j < |l[1..]| ensures l[1..][i] != l[1..][j] {
          assert l[1..][i] == l[i+1] && l[1..][j] == l[j+1];
        }
      }
      if l[0] == x {
        forall j | 0 <= j < |l[1..]| ensures l[1..][j] != x {
          assert l[1..][j] == l[j+1];
        }
      } else {
        RemoveFirstFromDistinct(l[1..], x);
      }
    }
  }

  lemma AddIfAbsentIdempotent(l: seq<string>, x: string)
    ensures AddIfAbsent(AddIfAbsent(l, x), x) == AddIfAbsent(l, x)
  {
  }

  /** Blocking then unblocking a map leaves it absent from the personal list,
      provided the list did not already name it twice (which only a hand-edited
      file can do). */
  lemma {:induction false} BlockThenUnblock(l: seq<string>, x: string)
    requires multiset(l)[x] <= 1
    ensures x !in RemoveFirst(AddIfAbsent(l, x), x)
  {
    var a := AddIfAbsent(l, x);
    assert multiset(a)[x] == 1;
    var r := RemoveFirst(a, x);
    assert multiset(r)[x] == 0;
  }

  /** Java's `String.replace("%player%", name)`: every occurrence of the
      placeholder, scanned left to right without overlap, becomes `name`. */
  function Substitute(s: string, name: string): (r: string)
    ensures name == PlayerPlaceholder ==> r == s
    decreases |s|
  {
    if |s| >= |PlayerPlaceholder| && s[..|PlayerPlaceholder|] == PlayerPlaceholder then
      var r := name + Substitute(s[|PlayerPlaceholder|..], name);
      assert name == PlayerPlaceholder ==> r == s by {
        if name == PlayerPlaceholder {
          assert s == s[..|PlayerPlaceholder|] + s[|PlayerPlaceholder|..];
        }
      }
      r
    else if s == [] then []
    else
      assert s == [s[0]] + s[1..];
      [s[0]] + Substitute(s[1..], name)
  }

  /** A command in which the placeholder occurs nowhere is dispatched
      unchanged, even when it holds a stray '%'. */
  lemma {:induction false} SubstituteWithoutPlaceholder(s: string, name: string)
    requires forall k :: !PlaceholderAt(s, k)
    ensures Substitute(s, name) == s
    decreases |s|
  {
    if s != [] {
      assert !PlaceholderAt(s, 0);
      SubstituteKeepsHead(s, name);
      forall k: int ensures !PlaceholderAt(s[1..], k) {
        if k >= 0 {
          PlaceholderInTail(s, k);
        }
      }
      SubstituteWithoutPlaceholder(s[1..], name);
      assert s == [s[0]] + s[1..];
    }
  }

  /** The placeholder occurs in `s` starting at index `k`. */
  predicate PlaceholderAt(s: string, k: int) {
    0 <= k && k + |PlayerPlaceholder| <= |s| && s[k..k + |PlayerPlaceholder|] == PlayerPlaceholder
  }

  /** Past a different head, the placeholders of the tail are those of the
      command, one index earlier. */
  lemma PlaceholderInTail(s: string, k: nat)
    requires s != []
    ensures PlaceholderAt(s[1..], k) <==> PlaceholderAt(s, k + 1)
  {
    if k + 1 + |PlayerPlaceholder| <= |s| {
      assert s[1..][k..k + |PlayerPlaceholder|] == s[k + 1..k + 1 + |PlayerPlaceholder|];
    }
  }

  /** A command opening with the placeholder has it replaced by the name. */
  lemma SubstituteAtPlaceholder(s: string, name: string)
    requires PlaceholderAt(s, 0)
    ensures Substitute(s, name) == name + Substitute(s[|PlayerPlaceholder|..], name)
  {
  }

  /** A command not opening with the placeholder keeps its first character. */
  lemma SubstituteKeepsHead(s: string, name: string)
    requires s != [] && !PlaceholderAt(s, 0)
    ensures Substitute(s, name) == [s[0]] + Substitute(s[1..], name)
  {
  }

  /** How the pieces around index `n` of the tail line up with the command. */
  lemma TailPieces(s: string, n: nat)
    requires 1 <= n && n + |PlayerPlaceholder| <= |s|
    ensures s[1..][..n - 1] == s[1..n]
    ensures s[1..][n - 1 + |PlayerPlaceholder|..] == s[n + |PlayerPlaceholder|..]
    ensures s[..n] == [s[0]] + s[1..n]
  {
  }

  /** The first placeholder of the command, at index `n`, is replaced by the
      name: the text before it is kept and the rest is processed in turn. */
  lemma {:induction false} SubstituteFillsPlaceholder(s: string, n: nat, name: string)
    requires PlaceholderAt(s, n)
    requires forall k :: 0 <= k < n ==> !PlaceholderAt(s, k)
    ensures Substitute(s, name) == s[..n] + name + Substitute(s[n + |PlayerPlaceholder|..], name)
    decreases n
  {
    if n == 0 {
      SubstituteAtPlaceholder(s, name);
      assert s[..0] == [];
    } else {
      var t := s[1..];
      forall k | 0 <= k < n - 1 ensures !PlaceholderAt(t, k) {
        PlaceholderInTail(s, k);
      }
      PlaceholderInTail(s, n - 1);
      SubstituteFillsPlaceholder(t, n - 1, name);
      assert !PlaceholderAt(s, 0);
      TailPieces(s, n);
      var rest := Substitute(s[n + |PlayerPlaceholder|..], name);
      calc {
        Substitute(s, name);
        { SubstituteKeepsHead(s, name); }
        [s[0]] + Substitute(t, name);
        [s[0]] + (s[1..n] + name + rest);
        ([s[0]] + s[1..n]) + name + rest;
        s[..n] + name + rest;
      }
    }
  }

  function UpperChar(c: char): char {
    if 'a' <= c <= 'z' then (c as int - 32) as char else c
  }

  /** `toUpperCase` on ASCII letters. */
  function ToUpperAscii(s: string): (r: string)
    ensures |r| == |s|
    ensures forall i :: 0 <= i < |s| ==> r[i] == UpperChar(s[i])
  {
    if s == [] then []
    else [UpperChar(s[0])] + ToUpperAscii(s[1..])
  }

  /** Upper-casing twice is upper-casing once. */
  lemma ToUpperAsciiIdempotent(s: string)
    ensures ToUpperAscii(ToUpperAscii(s)) == ToUpperAscii(s)
  {
    var u := ToUpperAscii(s);
    assert forall i :: 0 <= i < |u| ==> UpperChar(u[i]) == u[i];
  }

  /** The game-mode name is read case-insensitively. */
  lemma ParseGameModeIgnoresCase(mode: string)
    ensures ParseGameMode(ToUpperAscii(mode)) == ParseGameMode(mode)
  {
    ToUpperAsciiIdempotent(mode);
  }

  /** `GameMode.valueOf(mode.toUpperCase())`, falling back to ADVENTURE on an
      unknown name. */
  function ParseGameMode(mode: string): (m: GameMode)
    ensures ToUpperAscii(mode) == "SURVIVAL" ==> m == Survival
    ensures ToUpperAscii(mode) == "CREATIVE" ==> m == Creative
    ensures ToUpperAscii(mode) == "SPECTATOR" ==> m == Spectator
    ensures ToUpperAscii(mode) !in {"SURVIVAL", "CREATIVE", "SPECTATOR"} ==> m == Adventure
  {
    var u := ToUpperAscii(mode);
    if u == "SURVIVAL" then Survival
    else if u == "CREATIVE" then Creative
    else if u == "SPECTATOR" then Spectator
    else Adventure
  }

  /** The plugin's configuration. Each optional field is a YAML entry that may
      be missing; the getters apply the coded defaults. */
  class ConfigManager {
    var maxPlayersSetting: Option<int>
    var cleanupDelaySetting: Option<int>
    var noJoinCleanupDelaySetting: Option<int>
    var defaultGameModeSetting: Option<string>
    var mapDataUrlSetting: Option<string>
    var onJoinCommands: seq<string>
    /** `globally-blocked-maps.<map>` */
    var globallyBlocked: map<string, bool>
    /** `blocked-maps.<player uuid>` */
    var blockedMaps: map<Uuid, seq<string>>

    /** An empty configuration: every getter answers its default. */
    constructor ()
      ensures maxPlayersSetting == None && cleanupDelaySetting == None
      ensures noJoinCleanupDelaySetting == None && defaultGameModeSetting == None
      ensures mapDataUrlSetting == None && onJoinCommands == []
      ensures globallyBlocked == map[] && blockedMaps == map[]
    {
      maxPlayersSetting := None;
      cleanupDelaySetting := None;
      noJoinCleanupDelaySetting := None;
      defaultGameModeSetting := None;
      mapDataUrlSetting := None;
      onJoinCommands := [];
      globallyBlocked := map[];
      blockedMaps := map[];
    }

    function MaxPlayers(): (n: int)
      reads this
      ensures maxPlayersSetting.None? ==> n == DefaultMaxPlayers
      ensures maxPlayersSetting.Some? ==> n == maxPlayersSetting.value
    {
      maxPlayersSetting.GetOr(DefaultMaxPlayers)
    }

    function CleanupDelay(): (seconds: int)
      reads this
      ensures cleanupDelaySetting.None? ==> seconds == DefaultCleanupDelaySeconds
      ensures cleanupDelaySetting.Some? ==> seconds == cleanupDelaySetting.value
    {
      cleanupDelaySetting.GetOr(DefaultCleanupDelaySeconds)
    }

    function NoJoinCleanupDelay(): (seconds: int)
      reads this
      ensures noJoinCleanupDelaySetting.None? ==> seconds == DefaultNoJoinCleanupDelaySeconds
      ensures noJoinCleanupDelaySetting.Some? ==> seconds == noJoinCleanupDelaySetting.value
    {
      noJoinCleanupDelaySetting.GetOr(DefaultNoJoinCleanupDelaySeconds)
    }

    /** `getDefaultGameMode`: ADVENTURE when unset or unknown. */
    function DefaultGameMode(): (m: GameMode)
      reads this
      ensures defaultGameModeSetting.None? ==> m == Adventure
      ensures defaultGameModeSetting.Some? ==> m == ParseGameMode(defaultGameModeSetting.value)
    {
      ParseGameMode(defaultGameModeSetting.GetOr("ADVENTURE"))
    }

    function MapDataUrl(): (url: string)
      reads this
      ensures mapDataUrlSetting.None? ==> url == ""
      ensures mapDataUrlSetting.Some? ==> url == mapDataUrlSetting.value
    {
      mapDataUrlSetting.GetOr("")
    }

    function IsMapGloballyBlocked(mapName: string): (blocked: bool)
      reads this
      ensures blocked <==> mapName in globallyBlocked && globallyBlocked[mapName]
    {
      if mapName in globallyBlocked then globallyBlocked[mapName] else false
    }

    function BlockedMapsOf(player: Uuid): (l: seq<string>)
      reads this
      ensures player !in blockedMaps ==> l == []
      ensures player in blockedMaps ==> l == blockedMaps[player]
    {
      if player in blockedMaps then blockedMaps[player] else []
    }

    /** `canPlayerJoinMap`: the admission rule on this configuration. */
    function CanPlayerJoinMap(player: Player, mapName: string): (ok: bool)
      reads this
      ensures BypassPermission in player.permissions ==> ok
      ensures BypassPermission !in player.permissions && IsMapGloballyBlocked(mapName) ==> !ok
      ensures BypassPermission !in player.permissions && mapName in BlockedMapsOf(player.id) ==> !ok
      ensures ok <==> (BypassPermission in player.permissions ||
                       (!IsMapGloballyBlocked(mapName) && mapName !in BlockedMapsOf(player.id) &&
                        (MapPermission(mapName) in player.permissions || WildcardMapPermission in player.permissions)))
    {
      MayJoin(player.permissions, IsMapGloballyBlocked(mapName), BlockedMapsOf(player.id), mapName)
    }

    method SetMaxPlayers(n: int)
      modifies this
      ensures MaxPlayers() == n
      ensures maxPlayersSetting == Some(n)
      ensures cleanupDelaySetting == old(cleanupDelaySetting) && noJoinCleanupDelaySetting == old(noJoinCleanupDelaySetting)
      ensures defaultGameModeSetting == old(defaultGameModeSetting) && mapDataUrlSetting == old(mapDataUrlSetting)
      ensures onJoinCommands == old(onJoinCommands)
      ensures globallyBlocked == old(globallyBlocked) && blockedMaps == old(blockedMaps)
    {
      maxPlayersSetting := Some(n);
    }

    method SetCleanupDelay(seconds: int)
      modifies this
      ensures CleanupDelay() == seconds
      ensures cleanupDelaySetting == Some(seconds)
      ensures maxPlayersSetting == old(maxPlayersSetting) && noJoinCleanupDelaySetting == old(noJoinCleanupDelaySetting)
      ensures defaultGameModeSetting == old(defaultGameModeSetting) && mapDataUrlSetting == old(mapDataUrlSetting)
      ensures onJoinCommands == old(onJoinCommands)
      ensures globallyBlocked == old(globallyBlocked) && blockedMaps == old(blockedMaps)
    {
      cleanupDelaySetting := Some(seconds);
    }

    method SetMapDataUrl(url: string)
      modifies this
      ensures MapDataUrl() == url
      ensures mapDataUrlSetting == Some(url)
      ensures maxPlayersSetting == old(maxPlayersSetting) && cleanupDelaySetting == old(cleanupDelaySetting)
      ensures noJoinCleanupDelaySetting == old(noJoinCleanupDelaySetting)
      ensures defaultGameModeSetting == old(defaultGameModeSetting)
      ensures onJoinCommands == old(onJoinCommands)
      ensures globallyBlocked == old(globallyBlocked) && blockedMaps == old(blockedMaps)
    {
      mapDataUrlSetting := Some(url);
    }

    method BlockMapGlobally(mapName: string)
      modifies this
      ensures IsMapGloballyBlocked(mapName)
      ensures globallyBlocked == old(globallyBlocked)[mapName := true]
      ensures forall p: Player :: BypassPermission !in p.permissions ==> !CanPlayerJoinMap(p, mapName)
      ensures maxPlayersSetting == old(maxPlayersSetting) && cleanupDelaySetting == old(cleanupDelaySetting)
      ensures noJoinCleanupDelaySetting == old(noJoinCleanupDelaySetting)
      ensures defaultGameModeSetting == old(defaultGameModeSetting) && mapDataUrlSetting == old(mapDataUrlSetting)
      ensures onJoinCommands == old(onJoinCommands) && blockedMaps == old(blockedMaps)
    {
      globallyBlocked := globallyBlocked[mapName := true];
    }

    method UnblockMapGlobally(mapName: string)
      modifies this
      ensures !IsMapGloballyBlocked(mapName)
      ensures globallyBlocked == old(globallyBlocked)[mapName := false]
      ensures maxPlayersSetting == old(maxPlayersSetting) && cleanupDelaySetting == old(cleanupDelaySetting)
      ensures noJoinCleanupDelaySetting == old(noJoinCleanupDelaySetting)
      ensures defaultGameModeSetting == old(defaultGameModeSetting) && mapDataUrlSetting == old(mapDataUrlSetting)
      ensures onJoinCommands == old(onJoinCommands) && blockedMaps == old(blockedMaps)
    {
      globallyBlocked := globallyBlocked[mapName := false];
    }

    /** Adds the map to the player's list only when it is not there yet. */
    method BlockMapForPlayer(player: Uuid, mapName: string)
      modifies this
      ensures mapName in old(BlockedMapsOf(player)) ==> blockedMaps == old(blockedMaps)
      ensures mapName !in old(BlockedMapsOf(player)) ==>
        blockedMaps == old(blockedMaps)[player := old(BlockedMapsOf(player)) + [mapName]]
      ensures BlockedMapsOf(player) == AddIfAbsent(old(BlockedMapsOf(player)), mapName)
      ensures forall p: Player :: p.id == player && BypassPermission !in p.permissions ==> !CanPlayerJoinMap(p, mapName)
      ensures maxPlayersSetting == old(maxPlayersSetting) && cleanupDelaySetting == old(cleanupDelaySetting)
      ensures noJoinCleanupDelaySetting == old(noJoinCleanupDelaySetting)
      ensures defaultGameModeSetting == old(defaultGameModeSetting) && mapDataUrlSetting == old(mapDataUrlSetting)
      ensures onJoinCommands == old(onJoinCommands) && globallyBlocked == old(globallyBlocked)
    {
      var l := BlockedMapsOf(player);
      if mapName !in l {
        l := l + [mapName];
        blockedMaps := blockedMaps[player := l];
      }
    }

    /** Removes the first occurrence of the map (if any) and writes the list back. */
    method UnblockMapForPlayer(player: Uuid, mapName: string)
      modifies this
      ensures blockedMaps == old(blockedMaps)[player := RemoveFirst(old(BlockedMapsOf(player)), mapName)]
      ensures multiset(BlockedMapsOf(player)) == multiset(old(BlockedMapsOf(player))) - multiset{mapName}
      ensures maxPlayersSetting == old(maxPlayersSetting) && cleanupDelaySetting == old(cleanupDelaySetting)
      ensures noJoinCleanupDelaySetting == old(noJoinCleanupDelaySetting)
      ensures defaultGameModeSetting == old(defaultGameModeSetting) && mapDataUrlSetting == old(mapDataUrlSetting)
      ensures onJoinCommands == old(onJoinCommands) && globallyBlocked == old(globallyBlocked)
    {
      var l := BlockedMapsOf(player);
      l := RemoveFirst(l, mapName);
      blockedMaps := blockedMaps[player := l];
    }

    /** `executeOnJoinCommands`: the console commands dispatched for a player,
        in configuration order, each with its placeholder filled in. */
    method OnJoinCommandsFor(player: Player) returns (dispatched: seq<string>)
      ensures |dispatched| == |onJoinCommands|
      ensures forall i :: 0 <= i < |dispatched| ==> dispatched[i] == Substitute(onJoinCommands[i], player.name)
    {
      var commands := onJoinCommands;
      dispatched := [];
      var i := 0;
      while i < |commands|
        invariant 0 <= i <= |commands|
        invariant |dispatched| == i
        invariant forall k :: 0 <= k < i ==> dispatched[k] == Substitute(commands[k], player.name)
      {
        dispatched := dispatched + [Substitute(commands[i], player.name)];
        i := i + 1;
      }
    }
  }
}
