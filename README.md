# IcedSpear core in Dafny

IcedSpear is a Minecraft (Paper/Bukkit) parkour plugin. Players join copies
of a parkour map, called map instances. An instance is public (one per map),
private (a random id) or a party instance (derived from the party code). The
plugin queues players while an instance is being provisioned. It admits them
under a permission rule and a player cap, times their runs, keeps a per-map
top-100 leaderboard, and tears an instance down once it is empty. Around this
sit parties (a leader, members, invites and join requests), a symmetric
friend list, and a configuration with defaults and per-player map blocks.

This project models the plugin's managers and records:

- `MapManager` (`maps.dfy`) is a class holding the registry
  `activeInstances` (id to instance) and the player index `playerToInstance`.
- `MapInstance` (`instances.dfy`) is a class with fixed identity fields and
  a mutable state, world, spawn point, player set and waiting set.
- `PartyManager` (`parties.dfy`) and `Party` (`party.dfy`) are classes.
- `FriendManager` (`friends.dfy`) is a class over maps of sets.
- `LeaderboardManager` (`leaderboards.dfy`) is a class over a map of entry
  lists. `LeaderboardEntry` (`entries.dfy`) is an immutable datatype.
- `TimerManager` (`timers.dfy`) is a class over maps and a set.
- `ConfigManager` (`config.dfy`) is a class whose YAML entries are optional
  fields.

The Bukkit scheduler callbacks are separate methods. The model may call them
in any order and at any later time:

- `MapManager.ProvisionFailed` and `MapManager.ProvisionSucceeded` are the
  two outcomes of provisioning. The drain loop runs inside the second.
- `MapManager.FireNoJoin` is the no-join timer.
- `MapManager.FireTeardown` is the teardown timer. `LeaveMap` returns it.
- `PartyManager.FirePartyWarp` is the delayed warp. `StartPartyMap` returns it.
- `PartyManager.ExpireInvite` and `PartyManager.ExpireJoinRequest` are the
  request expiries.

Like the source's lambdas, each callback acts on the object it captured,
except that `destroyMap` acts on whatever the registry holds under the id.
The model follows the code as written. Nothing keeps a player in a single
instance: a join overwrites the index entry without leaving the previous
instance, `destroyMap` leaves index entries behind, and a party map replaces
any instance registered under the same id.

Environment inputs are parameters:

- the clock is `now`;
- the online-player table is `online`;
- a player looked up by name is an `Option` (None when offline);
- the outcome of the gold-block scan is `found`.

The random private code and the random party code are nondeterministic
choices (`:|`). A Java `null` result is an `Option`. Java's truncating `/`
and `%` on `long` are written out (`Entries.JavaDiv`, `Entries.JavaRem`).

Source paths below are relative to the repository's source tree. The enum
`MapState.java` is not part of this model; its six constants are
`Instances.MapState`.

## Model

| member | source | states |
|---|---|---|
| `Config.MapPermission` | IcedSpear/src/main/java/com/stufy/fragmc/icedspear/managers/ConfigManager.java:136 | The per-map permission node is `icedspear.map.` followed by the map name, which can be read back from it. |
| `Config.MayJoin` | IcedSpear/src/main/java/com/stufy/fragmc/icedspear/managers/ConfigManager.java:117-141 | Bypass always admits. Otherwise admission holds exactly when the map is not globally blocked, not in the player's list, and the player holds the map permission or the wildcard. |
| `Config.AddIfAbsent` | IcedSpear/src/main/java/com/stufy/fragmc/icedspear/managers/ConfigManager.java:157-164 | The map is in the result. The membership is the old list plus the map. A present map leaves the list unchanged. A list without duplicates stays without duplicates. |
| `Config.RemoveFirst` | IcedSpear/src/main/java/com/stufy/fragmc/icedspear/managers/ConfigManager.java:166-171 | The multiset loses exactly one copy of the map. The length drops by one exactly when the map was present. |
| `Config.RemoveFirstSplits` | IcedSpear/src/main/java/com/stufy/fragmc/icedspear/managers/ConfigManager.java:166-171 | When the map is listed, the copy removed is the first one. The entries before and after it keep their order. |
| `Config.RemoveFirstFromDistinct` | IcedSpear/src/main/java/com/stufy/fragmc/icedspear/managers/ConfigManager.java:166-171 | Unblocking a map from a duplicate-free list removes it entirely. |
| `Config.AddIfAbsentIdempotent` | IcedSpear/src/main/java/com/stufy/fragmc/icedspear/managers/ConfigManager.java:157-164 | Blocking twice equals blocking once. |
| `Config.BlockThenUnblock` | IcedSpear/src/main/java/com/stufy/fragmc/icedspear/managers/ConfigManager.java:157-171 | Block followed by unblock leaves the map absent, provided it was listed at most once. |
| `Config.SubstituteWithoutPlaceholder` | IcedSpear/src/main/java/com/stufy/fragmc/icedspear/managers/ConfigManager.java:59 | A command in which `%player%` occurs at no index is dispatched unchanged, even when it holds a stray `%`. |
| `Config.SubstituteFillsPlaceholder` | IcedSpear/src/main/java/com/stufy/fragmc/icedspear/managers/ConfigManager.java:59 | When the first `%player%` of a command starts at index n, the text before it is kept, the placeholder becomes the name, and the rest is substituted in turn. |
| `Config.Substitute` | IcedSpear/src/main/java/com/stufy/fragmc/icedspear/managers/ConfigManager.java:59 | `String.replace` of `%player%`, left to right. Substituting the placeholder by itself leaves the command unchanged. |
| `Config.ToUpperAscii` | IcedSpear/src/main/java/com/stufy/fragmc/icedspear/managers/ConfigManager.java:45 | Upper-casing keeps the length and maps the ASCII letters a-z to A-Z. Every other character is kept. |
| `Config.ParseGameMode` | IcedSpear/src/main/java/com/stufy/fragmc/icedspear/managers/ConfigManager.java:42-50 | The four mode names are read after upper-casing. Any other name falls back to ADVENTURE, where `valueOf` throws and the source catches it. |
| `Config.ToUpperAsciiIdempotent` | IcedSpear/src/main/java/com/stufy/fragmc/icedspear/managers/ConfigManager.java:45 | Upper-casing twice equals upper-casing once. |
| `Config.ParseGameModeIgnoresCase` | IcedSpear/src/main/java/com/stufy/fragmc/icedspear/managers/ConfigManager.java:42-50 | The game-mode name is read without regard to case. |
| `Config.ConfigManager.constructor` | IcedSpear/src/main/java/com/stufy/fragmc/icedspear/managers/ConfigManager.java:16-18 | Every setting starts unset. |
| `Config.ConfigManager.MaxPlayers` | IcedSpear/src/main/java/com/stufy/fragmc/icedspear/managers/ConfigManager.java:20-22 | The value is 10 when unset, otherwise the stored value. |
| `Config.ConfigManager.CleanupDelay` | IcedSpear/src/main/java/com/stufy/fragmc/icedspear/managers/ConfigManager.java:29-31 | The value is 15 seconds when unset, otherwise the stored value. |
| `Config.ConfigManager.NoJoinCleanupDelay` | IcedSpear/src/main/java/com/stufy/fragmc/icedspear/managers/ConfigManager.java:38-40 | The value is 60 seconds when unset, otherwise the stored value. |
| `Config.ConfigManager.DefaultGameMode` | IcedSpear/src/main/java/com/stufy/fragmc/icedspear/managers/ConfigManager.java:42-50 | The mode is ADVENTURE when unset. Otherwise the stored name is parsed, with ADVENTURE for an unknown name. |
| `Config.ConfigManager.MapDataUrl` | IcedSpear/src/main/java/com/stufy/fragmc/icedspear/managers/ConfigManager.java:173-175 | The URL is empty when unset, otherwise the stored value. |
| `Config.ConfigManager.IsMapGloballyBlocked` | IcedSpear/src/main/java/com/stufy/fragmc/icedspear/managers/ConfigManager.java:153-155 | The flag is false when the map has no entry. |
| `Config.ConfigManager.BlockedMapsOf` | IcedSpear/src/main/java/com/stufy/fragmc/icedspear/managers/ConfigManager.java:129 | The player's stored list, and the empty list for a player without one. |
| `Config.ConfigManager.CanPlayerJoinMap` | IcedSpear/src/main/java/com/stufy/fragmc/icedspear/managers/ConfigManager.java:117-141 | Gives both directions of the admission rule on the current configuration: bypass, then global block, then personal block, then permission. |
| `Config.ConfigManager.SetMaxPlayers` | IcedSpear/src/main/java/com/stufy/fragmc/icedspear/managers/ConfigManager.java:24-27 | `MaxPlayers()` then answers n. No other setting changes. |
| `Config.ConfigManager.SetCleanupDelay` | IcedSpear/src/main/java/com/stufy/fragmc/icedspear/managers/ConfigManager.java:33-36 | `CleanupDelay()` then answers the value. No other setting changes. |
| `Config.ConfigManager.SetMapDataUrl` | IcedSpear/src/main/java/com/stufy/fragmc/icedspear/managers/ConfigManager.java:177-180 | `MapDataUrl()` then answers the URL. No other setting changes. |
| `Config.ConfigManager.BlockMapGlobally` | IcedSpear/src/main/java/com/stufy/fragmc/icedspear/managers/ConfigManager.java:143-146 | The flag becomes true, and every player without bypass is refused the map. |
| `Config.ConfigManager.UnblockMapGlobally` | IcedSpear/src/main/java/com/stufy/fragmc/icedspear/managers/ConfigManager.java:148-151 | The flag becomes false. Nothing else changes. |
| `Config.ConfigManager.BlockMapForPlayer` | IcedSpear/src/main/java/com/stufy/fragmc/icedspear/managers/ConfigManager.java:157-164 | The map is appended only when absent, so a present map leaves the lists untouched. The player is then refused the map unless they hold bypass. |
| `Config.ConfigManager.UnblockMapForPlayer` | IcedSpear/src/main/java/com/stufy/fragmc/icedspear/managers/ConfigManager.java:166-171 | The list is written back with exactly one copy of the map removed. |
| `Config.ConfigManager.OnJoinCommandsFor` | IcedSpear/src/main/java/com/stufy/fragmc/icedspear/managers/ConfigManager.java:56-62 | One command is dispatched per configured command, in order, each with every `%player%` replaced by the player's name. |
| `Entries.ClockOf` | IcedSpear/src/main/java/com/stufy/fragmc/icedspear/models/LeaderboardEntry.java:38-41 | For a non-negative time, seconds lie in 0..59 and centiseconds in 0..99. The reading truncates the time to the centisecond: m·60000 + s·1000 + c·10 ≤ time < that + 10. |
| `Entries.NatToString` | IcedSpear/src/main/java/com/stufy/fragmc/icedspear/models/LeaderboardEntry.java:44-46 | A number below 10 prints one digit, and a number below 100 prints at most two. |
| `Entries.Pad2` | IcedSpear/src/main/java/com/stufy/fragmc/icedspear/models/LeaderboardEntry.java:44-46 | `%02d` of 0..99 is exactly two characters. |
| `Entries.ParseNatToString` | IcedSpear/src/main/java/com/stufy/fragmc/icedspear/models/LeaderboardEntry.java:44-46 | The decimal text of n reads back as n. |
| `Entries.ParsePad2` | IcedSpear/src/main/java/com/stufy/fragmc/icedspear/models/LeaderboardEntry.java:44-46 | A zero-padded two-digit field reads back as its value. |
| `Entries.ReadMinutesForm` | IcedSpear/src/main/java/com/stufy/fragmc/icedspear/models/LeaderboardEntry.java:44 | Text of the form `M:SS.CC` with parsable fields reads back as M·60000 + SS·1000 + CC·10. |
| `Entries.ReadSecondsForm` | IcedSpear/src/main/java/com/stufy/fragmc/icedspear/models/LeaderboardEntry.java:46 | Text of the form `S.CC` with at most three characters before the point reads back as S·1000 + CC·10. |
| `Entries.RenderMinutesReadsBack` | IcedSpear/src/main/java/com/stufy/fragmc/icedspear/models/LeaderboardEntry.java:43-44 | With whole minutes, the display reads back as the clock's milliseconds. |
| `Entries.RenderSecondsReadsBack` | IcedSpear/src/main/java/com/stufy/fragmc/icedspear/models/LeaderboardEntry.java:45-46 | Without minutes, the display reads back as the clock's milliseconds. |
| `Entries.RenderReadsBack` | IcedSpear/src/main/java/com/stufy/fragmc/icedspear/models/LeaderboardEntry.java:43-47 | Both shapes, `M:SS.CC` with minutes and `S.CC` without, read back as the clock's milliseconds. |
| `Entries.IntToString` | IcedSpear/src/main/java/com/stufy/fragmc/icedspear/models/LeaderboardEntry.java:44-46 | `%d` of a non-negative number reads back as that number. A negative one starts with a minus sign. |
| `Entries.Render` | IcedSpear/src/main/java/com/stufy/fragmc/icedspear/models/LeaderboardEntry.java:43-47 | Both display shapes end in a point and the two centisecond digits. With whole minutes a colon stands six characters from the end. |
| `Entries.FormattedTime` | IcedSpear/src/main/java/com/stufy/fragmc/icedspear/models/LeaderboardEntry.java:37-48 | For a non-negative time the display ends in a point and two digits. From one minute on it carries the `M:SS` part. |
| `Entries.FormattedTimeReadsBack` | IcedSpear/src/main/java/com/stufy/fragmc/icedspear/models/LeaderboardEntry.java:37-48 | For time ≥ 0 the display is well formed and shows the time truncated to the centisecond. |
| `Leaderboards.IndexOf` | IcedSpear/src/main/java/com/stufy/fragmc/icedspear/managers/LeaderboardManager.java:190-196 | The result is the index of the player's first entry, or -1 exactly when the player has none. |
| `Leaderboards.RankOf` | IcedSpear/src/main/java/com/stufy/fragmc/icedspear/managers/LeaderboardManager.java:212-218 | The rank is -1 or in 1..size, points at the player's entry, and is -1 exactly when the player is absent. |
| `Leaderboards.InsertionPoint` | IcedSpear/src/main/java/com/stufy/fragmc/icedspear/managers/LeaderboardManager.java:138 | The result is the position before the first strictly slower entry. |
| `Leaderboards.BeforeInsertionPoint` | IcedSpear/src/main/java/com/stufy/fragmc/icedspear/managers/LeaderboardManager.java:138 | Every entry before the insertion point is no slower than the newcomer. |
| `Leaderboards.Insert` | IcedSpear/src/main/java/com/stufy/fragmc/icedspear/managers/LeaderboardManager.java:138 | Inserting makes the list one entry longer. `InsertPermutes`, `InsertIndex` and `InsertSorted` state where the entry goes. |
| `Leaderboards.InsertPermutes` | IcedSpear/src/main/java/com/stufy/fragmc/icedspear/managers/LeaderboardManager.java:138 | Inserting yields the list plus exactly the newcomer, as a multiset. |
| `Leaderboards.InsertMembers` | IcedSpear/src/main/java/com/stufy/fragmc/icedspear/managers/LeaderboardManager.java:138 | The inserted list holds exactly the old entries and the newcomer. |
| `Leaderboards.InsertIndex` | IcedSpear/src/main/java/com/stufy/fragmc/icedspear/managers/LeaderboardManager.java:138 | The newcomer sits at the insertion point. Earlier entries keep their index, and later ones shift by one. |
| `Leaderboards.InsertSorted` | IcedSpear/src/main/java/com/stufy/fragmc/icedspear/managers/LeaderboardManager.java:138 | Inserting into a sorted list keeps it sorted. |
| `Leaderboards.SortByTime` | IcedSpear/src/main/java/com/stufy/fragmc/icedspear/managers/LeaderboardManager.java:138 | The sort keeps the length. `SortByTimeSorted` and `SortByTimePermutes` state that it sorts and permutes. |
| `Leaderboards.SortByTimeSorted` | IcedSpear/src/main/java/com/stufy/fragmc/icedspear/managers/LeaderboardManager.java:138 | The sort by time yields a list ordered by time. |
| `Leaderboards.SortByTimePermutes` | IcedSpear/src/main/java/com/stufy/fragmc/icedspear/managers/LeaderboardManager.java:138 | The sort is a permutation of its input: every entry keeps its multiplicity. |
| `Leaderboards.SortSameMembers` | IcedSpear/src/main/java/com/stufy/fragmc/icedspear/managers/LeaderboardManager.java:138 | The sorted list holds exactly the entries of its input. |
| `Leaderboards.InsertionPointOfLast` | IcedSpear/src/main/java/com/stufy/fragmc/icedspear/managers/LeaderboardManager.java:138 | An entry no faster than every listed entry goes last. |
| `Leaderboards.SortSortedIsIdentity` | IcedSpear/src/main/java/com/stufy/fragmc/icedspear/managers/LeaderboardManager.java:138 | Sorting a sorted list changes nothing. |
| `Leaderboards.NewcomerRanksAfterTies` | IcedSpear/src/main/java/com/stufy/fragmc/icedspear/managers/LeaderboardManager.java:134-138 | Appending then sorting places the newcomer after every entry with an equal time and before every slower one. |
| `Leaderboards.InsertUnique` | IcedSpear/src/main/java/com/stufy/fragmc/icedspear/managers/LeaderboardManager.java:135-138 | Inserting a player who is not listed keeps one entry per player. |
| `Leaderboards.SortUnique` | IcedSpear/src/main/java/com/stufy/fragmc/icedspear/managers/LeaderboardManager.java:138 | Sorting keeps one entry per player. |
| `Leaderboards.RemoveAt` | IcedSpear/src/main/java/com/stufy/fragmc/icedspear/managers/LeaderboardManager.java:131 | Removing the old entry shortens the list by one. |
| `Leaderboards.Truncated` | IcedSpear/src/main/java/com/stufy/fragmc/icedspear/managers/LeaderboardManager.java:141-144 | Keeping the top 100 gives a prefix of at most 100 entries, and leaves a list of at most 100 unchanged. |
| `Leaderboards.Updated` | IcedSpear/src/main/java/com/stufy/fragmc/icedspear/managers/LeaderboardManager.java:116-147 | `addTime` either leaves the list as it was or leaves at most 100 entries, and adds at most one entry. |
| `Leaderboards.AddTimeKeepsSorted` | IcedSpear/src/main/java/com/stufy/fragmc/icedspear/managers/LeaderboardManager.java:116-147 | Every list `addTime` leaves is sorted ascending by time. |
| `Leaderboards.AddTimeCapped` | IcedSpear/src/main/java/com/stufy/fragmc/icedspear/managers/LeaderboardManager.java:141-144 | A list of at most 100 entries stays at most 100. Any list the call changes ends at most 100. |
| `Leaderboards.RemoveAtUnique` | IcedSpear/src/main/java/com/stufy/fragmc/icedspear/managers/LeaderboardManager.java:131 | Removing the player's entry keeps the others unique and leaves no entry of that player. |
| `Leaderboards.AppendUnique` | IcedSpear/src/main/java/com/stufy/fragmc/icedspear/managers/LeaderboardManager.java:135 | Adding a player who is not listed to a list with one entry per player keeps one entry per player. |
| `Leaderboards.PrefixUnique` | IcedSpear/src/main/java/com/stufy/fragmc/icedspear/managers/LeaderboardManager.java:141-144 | Cutting the list to its top entries keeps one entry per player. |
| `Leaderboards.NewBoardUnique` | IcedSpear/src/main/java/com/stufy/fragmc/icedspear/managers/LeaderboardManager.java:134-144 | The board rebuilt from the other players' entries and the new entry has one entry per player. |
| `Leaderboards.AddTimeKeepsUnique` | IcedSpear/src/main/java/com/stufy/fragmc/icedspear/managers/LeaderboardManager.java:119-138 | At most one entry per player survives `addTime`. |
| `Leaderboards.OnlyNewcomerHasId` | IcedSpear/src/main/java/com/stufy/fragmc/icedspear/managers/LeaderboardManager.java:130-138 | After the old entry is removed and the list sorted, the only entry carrying the player's id is the new one. |
| `Leaderboards.SurvivorIsNewcomer` | IcedSpear/src/main/java/com/stufy/fragmc/icedspear/managers/LeaderboardManager.java:134-144 | If the player is listed after the rebuild, the listed entry is the new one. |
| `Leaderboards.AddTimeRecordsBest` | IcedSpear/src/main/java/com/stufy/fragmc/icedspear/managers/LeaderboardManager.java:119-147 | A slower or equal time leaves the list unchanged. A listed player's recorded time is the better of the old and the new. |
| `Leaderboards.NewcomerListed` | IcedSpear/src/main/java/com/stufy/fragmc/icedspear/managers/LeaderboardManager.java:134-144 | When fewer than 100 other entries remain, the new entry survives the cut and has a rank. |
| `Leaderboards.AddTimeRankMissingOnlyWhenFull` | IcedSpear/src/main/java/com/stufy/fragmc/icedspear/managers/LeaderboardManager.java:141-156 | The answer -1 occurs only when the list already held 100 entries and the newcomer was cut off. |
| `Leaderboards.FindPlayer` | IcedSpear/src/main/java/com/stufy/fragmc/icedspear/managers/LeaderboardManager.java:120-126 | The search loop finds the player's first entry, or answers -1. |
| `Leaderboards.UpdatedList` | IcedSpear/src/main/java/com/stufy/fragmc/icedspear/managers/LeaderboardManager.java:117-147 | The in-place remove, add, sort and truncate steps compute the specified updated list. |
| `Leaderboards.AddTimeKeepsWellFormed` | IcedSpear/src/main/java/com/stufy/fragmc/icedspear/managers/LeaderboardManager.java:116-147 | Sorted order, one entry per player and the cap of 100 together survive `addTime`. |
| `Leaderboards.RecordTime` | IcedSpear/src/main/java/com/stufy/fragmc/icedspear/managers/LeaderboardManager.java:116-156 | On one board, the list computed is the specified update and stays well formed. The rank is the player's 1-based position, and -1 only when the old board was full. |
| `Leaderboards.LeaderboardManager.constructor` | IcedSpear/src/main/java/com/stufy/fragmc/icedspear/managers/LeaderboardManager.java:22-28 | The manager starts with no boards. The invariant holds: sorted, one entry per player, at most 100 entries. |
| `Leaderboards.LeaderboardManager.AddTime` | IcedSpear/src/main/java/com/stufy/fragmc/icedspear/managers/LeaderboardManager.java:116-157 | Only the named map's list changes, and it changes to the specified update. The invariant is kept. The answer is the player's 1-based rank, or -1 only when cut off a full list. |
| `Leaderboards.LeaderboardManager.TopTimes` | IcedSpear/src/main/java/com/stufy/fragmc/icedspear/managers/LeaderboardManager.java:165-175 | The result is a prefix of length min(limit, size), empty for an unknown or empty map. A negative limit on a non-empty list is an error. |
| `Leaderboards.LeaderboardManager.GetPlayerTime` | IcedSpear/src/main/java/com/stufy/fragmc/icedspear/managers/LeaderboardManager.java:183-197 | The result is the player's time, or -1 when absent. |
| `Leaderboards.LeaderboardManager.GetPlayerRank` | IcedSpear/src/main/java/com/stufy/fragmc/icedspear/managers/LeaderboardManager.java:205-219 | The result is the 1-based rank, or -1 when absent. A rank points at the player's entry. |
| `Timers.FormatTime` | IcedSpear/src/main/java/com/stufy/fragmc/icedspear/managers/TimerManager.java:176-187 | This is the leaderboard's formula. A non-negative duration reads back truncated to the centisecond. |
| `Timers.TimerManager.constructor` | IcedSpear/src/main/java/com/stufy/fragmc/icedspear/managers/TimerManager.java:34-44 | Nobody has a timer. The invariant holds: nobody is active and finished at once, and both groups have started. |
| `Timers.TimerManager.PhaseOf` | IcedSpear/src/main/java/com/stufy/fragmc/icedspear/managers/TimerManager.java:49-90 | A player is idle, running since the stored start, or finished with the stored time. |
| `Timers.TimerManager.StartTimer` | IcedSpear/src/main/java/com/stufy/fragmc/icedspear/managers/TimerManager.java:49-66 | Only an idle player starts, at `now`, and enters the started set. Otherwise nothing changes. The invariant is kept. |
| `Timers.TimerManager.StopTimer` | IcedSpear/src/main/java/com/stufy/fragmc/icedspear/managers/TimerManager.java:71-90 | Only a running player stops. The run is recorded as `now - start` and the active entry is removed. Otherwise nothing changes. |
| `Timers.TimerManager.ResetPlayer` | IcedSpear/src/main/java/com/stufy/fragmc/icedspear/managers/TimerManager.java:141-145 | The player leaves all three collections. Every other player's phase and started flag is unchanged. |
| `Timers.TimerManager.HasFinished` | IcedSpear/src/main/java/com/stufy/fragmc/icedspear/managers/TimerManager.java:150-152 | The flag holds exactly when the player is finished, and a finished player has started. |
| `Timers.TimerManager.HasStarted` | IcedSpear/src/main/java/com/stufy/fragmc/icedspear/managers/TimerManager.java:157-159 | Every running or finished player has started. |
| `Timers.TimerManager.CurrentTime` | IcedSpear/src/main/java/com/stufy/fragmc/icedspear/managers/TimerManager.java:164-171 | The time is 0 without a running timer, otherwise `now - start`. |
| `Instances.MapInstance.constructor` | IcedSpear/src/main/java/com/stufy/fragmc/icedspear/models/MapInstance.java:18-26 | The identity fields are as given. The instance is CREATING, with no world, no spawn and empty sets. |
| `Instances.MapInstance.SetWorld` | IcedSpear/src/main/java/com/stufy/fragmc/icedspear/models/MapInstance.java:44-46 | The world is set. Nothing else may change. |
| `Instances.MapInstance.SetSpawnLocation` | IcedSpear/src/main/java/com/stufy/fragmc/icedspear/models/MapInstance.java:52-54 | The spawn is set. Nothing else may change. |
| `Instances.MapInstance.SetState` | IcedSpear/src/main/java/com/stufy/fragmc/icedspear/models/MapInstance.java:60-62 | The state is set. Nothing else may change. |
| `Instances.MapInstance.AddPlayer` | IcedSpear/src/main/java/com/stufy/fragmc/icedspear/models/MapInstance.java:68-70 | The player is inserted into `players` only. A repeated insertion is idempotent. |
| `Instances.MapInstance.RemovePlayer` | IcedSpear/src/main/java/com/stufy/fragmc/icedspear/models/MapInstance.java:72-75 | The player leaves both sets. |
| `Instances.MapInstance.AddWaitingPlayer` | IcedSpear/src/main/java/com/stufy/fragmc/icedspear/models/MapInstance.java:77-79 | The player is inserted into `waitingPlayers` only. A repeated insertion is idempotent. |
| `Instances.MapInstance.ClearWaitingPlayers` | IcedSpear/src/main/java/com/stufy/fragmc/icedspear/models/MapInstance.java:85-87 | `waitingPlayers` is emptied, and `players` is untouched. |
| `Maps.PublicId` | IcedSpear/src/main/java/com/stufy/fragmc/icedspear/managers/MapManager.java:28 | A public id is `PUBLIC_` followed by the map name, which can be read back from it. |
| `Maps.PublicIdInjective` | IcedSpear/src/main/java/com/stufy/fragmc/icedspear/managers/MapManager.java:28 | Distinct maps have distinct public ids. |
| `Maps.PrivateId` | IcedSpear/src/main/java/com/stufy/fragmc/icedspear/managers/MapManager.java:46 | A private id is the map name, `_` and the code, so both can be read back from it. |
| `Maps.PrivateIdIsNoPartyId` | IcedSpear/src/main/java/com/stufy/fragmc/icedspear/managers/MapManager.java:46-59 | With a random hex code, a private id never equals a party id of the same map. |
| `Maps.PartyId` | IcedSpear/src/main/java/com/stufy/fragmc/icedspear/managers/MapManager.java:59 | A party id is the map name, `_party-` and the party code, so both can be read back from it. |
| `Maps.JoinDecision` | IcedSpear/src/main/java/com/stufy/fragmc/icedspear/managers/MapManager.java:267-291 | Each outcome holds exactly under its condition, taken in the source's order: already here, CREATING queues, not WAITING/RUNNING, no permission, full, admitted. |
| `Maps.EndingRejectsJoins` | IcedSpear/src/main/java/com/stufy/fragmc/icedspear/managers/MapManager.java:278-281 | An ENDING instance turns every joiner away. |
| `Maps.IndexedPointsAt` | IcedSpear/src/main/java/com/stufy/fragmc/icedspear/managers/MapManager.java:233 | After the drain, exactly the admitted players' index entries name the instance, and all other entries are unchanged. |
| `Maps.IndexedOneMore` | IcedSpear/src/main/java/com/stufy/fragmc/icedspear/managers/MapManager.java:233 | Indexing one more admitted player extends the indexed set by that player. |
| `Maps.MapManager.constructor` | IcedSpear/src/main/java/com/stufy/fragmc/icedspear/managers/MapManager.java:19-25 | The registry and the index start empty, and the invariant holds. |
| `Maps.MapManager.CreatePublicMap` | IcedSpear/src/main/java/com/stufy/fragmc/icedspear/managers/MapManager.java:27-42 | The answer is `PUBLIC_`+map. A registered id leaves the registry unchanged and starts no provisioning. Otherwise a fresh CREATING, empty instance is registered. |
| `Maps.MapManager.CreatePrivateMap` | IcedSpear/src/main/java/com/stufy/fragmc/icedspear/managers/MapManager.java:44-56 | The id is map + `_` + an eight-hex-digit code that can be recovered from it. A fresh instance is registered, overwriting any entry under that id. |
| `Maps.MapManager.CreatePartyMap` | IcedSpear/src/main/java/com/stufy/fragmc/icedspear/managers/MapManager.java:58-69 | The id is map + `_party-` + code. A fresh instance replaces any same-id entry unchecked. |
| `Maps.MapManager.BeginProvisioning` | IcedSpear/src/main/java/com/stufy/fragmc/icedspear/managers/MapManager.java:71-72 | Provisioning starts by setting CREATING. |
| `Maps.MapManager.AttachWorld` | IcedSpear/src/main/java/com/stufy/fragmc/icedspear/managers/MapManager.java:108-110 | The created world, named after the instance id, is attached. |
| `Maps.MapManager.ProvisionFailed` | IcedSpear/src/main/java/com/stufy/fragmc/icedspear/managers/MapManager.java:146-149 | A missing schematic or a failed paste sets ERROR. |
| `Maps.MapManager.ProvisionSucceeded` | IcedSpear/src/main/java/com/stufy/fragmc/icedspear/managers/MapManager.java:209-256 | The spawn is the found block or the fallback. Each admitted player was queued, online and permitted, and is added to `players` and the index. Any permitted player left out was refused only at capacity. The queue is then emptied, and the state is RUNNING exactly when `players` is non-empty, else WAITING. |
| `Maps.MapManager.Drain` | IcedSpear/src/main/java/com/stufy/fragmc/icedspear/managers/MapManager.java:219-250 | The drain loop admits only permitted online queued players, keeps the cap, and refuses a permitted player only when the instance is full. |
| `Maps.MapManager.AdmitQueued` | IcedSpear/src/main/java/com/stufy/fragmc/icedspear/managers/MapManager.java:220-233 | One queued player is admitted exactly when online, permitted and below capacity. |
| `Maps.MapManager.Decision` | IcedSpear/src/main/java/com/stufy/fragmc/icedspear/managers/MapManager.java:260-291 | The verdict is "unknown instance" exactly when the id is not registered. |
| `Maps.MapManager.JoinMap` | IcedSpear/src/main/java/com/stufy/fragmc/icedspear/managers/MapManager.java:260-316 | The answer is true exactly when queued or admitted. Every refusal changes nothing. A CREATING instance only queues. An admission adds the player to `players` under the cap, overwrites the index entry, and makes WAITING into RUNNING. |
| `Maps.MapManager.LeaveMap` | IcedSpear/src/main/java/com/stufy/fragmc/icedspear/managers/MapManager.java:318-370 | The index entry is always removed. For a registered instance the player leaves both sets and their timer is reset. An emptied instance becomes ENDING and a teardown is scheduled. |
| `Maps.MapManager.DestroyMap` | IcedSpear/src/main/java/com/stufy/fragmc/icedspear/managers/MapManager.java:372-376 | The id leaves the registry (a no-op when absent). An instance with a world becomes DESTROYING. The index is untouched. |
| `Maps.MapManager.FireTeardown` | IcedSpear/src/main/java/com/stufy/fragmc/icedspear/managers/MapManager.java:360-367 | If the captured instance is still empty, the id is destroyed. A captured instance that is no longer registered keeps its state. Otherwise only the captured instance returns to RUNNING: the registry is unchanged, and a different instance registered under the same id (after `createPartyMap` overwrote it) keeps its state. |
| `Maps.MapManager.FireNoJoin` | IcedSpear/src/main/java/com/stufy/fragmc/icedspear/managers/MapManager.java:128-141 | The id is destroyed only for a CREATING or WAITING instance with both sets empty. ERROR instances survive. |
| `Maps.MapManager.Cleanup` | IcedSpear/src/main/java/com/stufy/fragmc/icedspear/managers/MapManager.java:440-446 | Exactly the non-public instances are destroyed. Public ones stay registered and untouched. |
| `Maps.MapManager.GetInstance` | IcedSpear/src/main/java/com/stufy/fragmc/icedspear/managers/MapManager.java:428-430 | The lookup is found exactly when the id is registered, and the instance found carries that id. |
| `Maps.MapManager.GetPlayerInstance` | IcedSpear/src/main/java/com/stufy/fragmc/icedspear/managers/MapManager.java:432-434 | The answer is the indexed id, or None. |
| `Maps.MapManager.GetActiveInstances` | IcedSpear/src/main/java/com/stufy/fragmc/icedspear/managers/MapManager.java:436-438 | The copy has the registry's ids, each filed under its own id. |
| `Friends.Befriend` | IcedSpear/src/main/java/com/stufy/fragmc/icedspear/managers/FriendManager.java:102-103 | Each player enters the other's set. Nobody else's set changes. |
| `Friends.Unfriend` | IcedSpear/src/main/java/com/stufy/fragmc/icedspear/managers/FriendManager.java:115-122 | The friend leaves the player's set. Nobody else's set but the friend's changes. |
| `Friends.BefriendKeepsSymmetry` | IcedSpear/src/main/java/com/stufy/fragmc/icedspear/managers/FriendManager.java:102-103 | Accepting keeps friendship symmetric. |
| `Friends.UnfriendKeepsSymmetry` | IcedSpear/src/main/java/com/stufy/fragmc/icedspear/managers/FriendManager.java:115-122 | Removing keeps friendship symmetric. |
| `Friends.FriendManager.constructor` | IcedSpear/src/main/java/com/stufy/fragmc/icedspear/managers/FriendManager.java:21-29 | All three maps start empty, and friendship is symmetric. |
| `Friends.FriendManager.AreFriends` | IcedSpear/src/main/java/com/stufy/fragmc/icedspear/managers/FriendManager.java:213-216 | The answer is false for a player without a set. |
| `Friends.FriendManager.AreFriendsSymmetric` | IcedSpear/src/main/java/com/stufy/fragmc/icedspear/managers/FriendManager.java:213-216 | Friendship reads the same both ways. |
| `Friends.FriendManager.HasPendingRequest` | IcedSpear/src/main/java/com/stufy/fragmc/icedspear/managers/FriendManager.java:218-221 | The answer is false for a target without a set. |
| `Friends.FriendManager.GetFriends` | IcedSpear/src/main/java/com/stufy/fragmc/icedspear/managers/FriendManager.java:205-207 | The copy holds exactly the player's friends, empty when none. |
| `Friends.FriendManager.GetPendingRequests` | IcedSpear/src/main/java/com/stufy/fragmc/icedspear/managers/FriendManager.java:209-211 | The copy holds exactly the pending senders. |
| `Friends.FriendManager.GetJoinRequests` | IcedSpear/src/main/java/com/stufy/fragmc/icedspear/managers/FriendManager.java:201-203 | The copy holds the join requesters, empty for a missing key. |
| `Friends.FriendManager.AcceptFriendRequest` | IcedSpear/src/main/java/com/stufy/fragmc/icedspear/managers/FriendManager.java:91-107 | The call succeeds exactly on a pending request. The request is consumed and the two become friends both ways, with symmetry kept. |
| `Friends.FriendManager.SendFriendRequest` | IcedSpear/src/main/java/com/stufy/fragmc/icedspear/managers/FriendManager.java:73-89 | Friends are refused with no change. When the target's pending set already holds the sender, the request is accepted on the target's behalf. Otherwise the sender is recorded as pending. |
| `Friends.FriendManager.SendFriendRequestIntended` | IcedSpear/src/main/java/com/stufy/fragmc/icedspear/managers/FriendManager.java:81-87 | The corrected request: friends are refused with no change. When the target has already asked the sender, that request is accepted on the sender's behalf. Otherwise the sender is recorded as pending. Two players become friends only when a request from the other side was pending. |
| `Friends.RepeatedRequestBefriends` | IcedSpear/src/main/java/com/stufy/fragmc/icedspear/managers/FriendManager.java:81-85 | From an empty manager, `a` sending the same request to `b` twice makes the two friends both ways, although `b` never accepted. |
| `Friends.RepeatedRequestStaysPending` | IcedSpear/src/main/java/com/stufy/fragmc/icedspear/managers/FriendManager.java:81-87 | With the corrected check, the same two requests leave `a` pending with `b` and the two not friends. |
| `Friends.MutualRequestsBefriend` | IcedSpear/src/main/java/com/stufy/fragmc/icedspear/managers/FriendManager.java:81-85 | With the corrected check, a request from each side makes the two friends both ways. |
| `Friends.FriendManager.RemoveFriend` | IcedSpear/src/main/java/com/stufy/fragmc/icedspear/managers/FriendManager.java:109-126 | The call succeeds exactly between friends and removes the friendship in both directions. |
| `Friends.FriendManager.SendJoinRequest` | IcedSpear/src/main/java/com/stufy/fragmc/icedspear/managers/FriendManager.java:136-156 | The request is recorded exactly when the two are friends and the friend is indexed to a map. |
| `Friends.FriendManager.AcceptJoinRequest` | IcedSpear/src/main/java/com/stufy/fragmc/icedspear/managers/FriendManager.java:164-194 | An existing request is consumed before the accepter's map is checked. Success is exactly `joinMap`'s verdict on the accepter's map. A refusal leaves the map index and the accepter's instance unchanged. A direct join indexes the requester to the accepter's instance. A queued join leaves the index as it was. |
| `PartyModel.Party.constructor` | IcedSpear/src/main/java/com/stufy/fragmc/icedspear/models/Party.java:11-16 | The members are exactly the leader, and there is no current map. |
| `PartyModel.Party.Members` | IcedSpear/src/main/java/com/stufy/fragmc/icedspear/models/Party.java:26-28 | The copy holds exactly the members. |
| `PartyModel.Party.AddMember` | IcedSpear/src/main/java/com/stufy/fragmc/icedspear/models/Party.java:30-32 | The member is inserted idempotently. |
| `PartyModel.Party.RemoveMember` | IcedSpear/src/main/java/com/stufy/fragmc/icedspear/models/Party.java:34-36 | The member is removed idempotently. |
| `PartyModel.Party.SetCurrentMap` | IcedSpear/src/main/java/com/stufy/fragmc/icedspear/models/Party.java:42-44 | `getCurrentMap` then answers the id. |
| `PartyModel.Party.CurrentMap` | IcedSpear/src/main/java/com/stufy/fragmc/icedspear/models/Party.java:38-40 | The answer is the stored map id, or None. |
| `Parties.PartyCode` | IcedSpear/src/main/java/com/stufy/fragmc/icedspear/managers/PartyManager.java:186 | `%04d` gives four characters, padded with leading zeros below 1000, 100 and 10. |
| `Parties.PartyCodeReadsBack` | IcedSpear/src/main/java/com/stufy/fragmc/icedspear/managers/PartyManager.java:186 | `%04d` of 0..9999 is four digits that spell the number. |
| `Parties.PartyCodeInjective` | IcedSpear/src/main/java/com/stufy/fragmc/icedspear/managers/PartyManager.java:186 | Distinct draws give distinct codes. |
| `Parties.Offered` | IcedSpear/src/main/java/com/stufy/fragmc/icedspear/managers/PartyManager.java:209 | `computeIfAbsent(..).add(..)` puts the sender in the target's set. |
| `Parties.Withdrawn` | IcedSpear/src/main/java/com/stufy/fragmc/icedspear/managers/PartyManager.java:217-219 | The expiry leaves the sender out of the target's set. |
| `Parties.WithdrawUndoesOffer` | IcedSpear/src/main/java/com/stufy/fragmc/icedspear/managers/PartyManager.java:209-226 | An expiry undoes its own offer and leaves every other offer. |
| `Parties.Toggle` | IcedSpear/src/main/java/com/stufy/fragmc/icedspear/managers/PartyManager.java:315-323 | The toggle flips the player's membership only. |
| `Parties.ToggleTwice` | IcedSpear/src/main/java/com/stufy/fragmc/icedspear/managers/PartyManager.java:315-323 | Toggling twice restores the set. |
| `Parties.PartyManager.constructor` | IcedSpear/src/main/java/com/stufy/fragmc/icedspear/managers/PartyManager.java:22-33 | Everything starts empty, and the invariant holds. |
| `Parties.PartyManager.GeneratePartyCode` | IcedSpear/src/main/java/com/stufy/fragmc/icedspear/managers/PartyManager.java:183-189 | The code has four digits and no party holds it. |
| `Parties.PartyManager.CreateParty` | IcedSpear/src/main/java/com/stufy/fragmc/icedspear/managers/PartyManager.java:35-47 | A player already in a party is refused with no change. Otherwise a fresh party whose only member is the leader is filed under a new code, and the leader is indexed to it. The invariant is kept. |
| `Parties.PartyManager.JoinParty` | IcedSpear/src/main/java/com/stufy/fragmc/icedspear/managers/PartyManager.java:49-72 | The player joins exactly when the code is registered, the party is below the player limit and the player is in no party. Success adds the member and the index entry, and a refusal changes nothing. The invariant is kept. |
| `Parties.PartyManager.DisbandParty` | IcedSpear/src/main/java/com/stufy/fragmc/icedspear/managers/PartyManager.java:125-135 | The party leaves the registry and each of its members leaves the index (the loop). An unknown code is a no-op. The invariant is kept. |
| `Parties.PartyManager.DisbandKeepsValid` | IcedSpear/src/main/java/com/stufy/fragmc/icedspear/managers/PartyManager.java:125-135 | Disbanding restores the invariant. |
| `Parties.PartyManager.LeaveParty` | IcedSpear/src/main/java/com/stufy/fragmc/icedspear/managers/PartyManager.java:74-95 | A no-op when the player is in no party. Otherwise the player leaves the members and the index. When the leader leaves, the party is disbanded and every member is unindexed. The invariant is kept. |
| `Parties.PartyManager.KickMember` | IcedSpear/src/main/java/com/stufy/fragmc/icedspear/managers/PartyManager.java:97-123 | The call succeeds exactly for the leader kicking an online member other than themself. The target leaves the members and the index. The invariant is kept. |
| `Parties.PartyManager.StartPartyMap` | IcedSpear/src/main/java/com/stufy/fragmc/icedspear/managers/PartyManager.java:137-164 | Only the leader starts a map. A fresh party instance is registered under map + `_party-` + code and recorded as the party's current map, and a warp is scheduled. |
| `Parties.PartyManager.FirePartyWarp` | IcedSpear/src/main/java/com/stufy/fragmc/icedspear/managers/PartyManager.java:154-161 | Only online members at fire time go through `joinMap`. Only accepted ones can move in the index, and only to this instance. Nobody joins an id that is no longer registered. |
| `Parties.PartyManager.GetParty` | IcedSpear/src/main/java/com/stufy/fragmc/icedspear/managers/PartyManager.java:166-168 | The party found carries its code and contains its leader. |
| `Parties.PartyManager.GetPlayerParty` | IcedSpear/src/main/java/com/stufy/fragmc/icedspear/managers/PartyManager.java:170-172 | The answer is the code of the one party containing the player. |
| `Parties.PartyManager.NotifyParty` | IcedSpear/src/main/java/com/stufy/fragmc/icedspear/managers/PartyManager.java:174-181 | Exactly the online members are reached. |
| `Parties.PartyManager.InvitePlayer` | IcedSpear/src/main/java/com/stufy/fragmc/icedspear/managers/PartyManager.java:191-227 | The invite is recorded exactly when the sender leads a party and the target is in none. |
| `Parties.PartyManager.ExpireInvite` | IcedSpear/src/main/java/com/stufy/fragmc/icedspear/managers/PartyManager.java:216-226 | The sender leaves the target's invite set. |
| `Parties.PartyManager.AcceptInvite` | IcedSpear/src/main/java/com/stufy/fragmc/icedspear/managers/PartyManager.java:229-251 | Without an invite nothing happens. Otherwise the invite is consumed, whether or not the join succeeds and also when the sender's party is gone. The join succeeds exactly when `joinParty` allows it. |
| `Parties.PartyManager.RequestJoin` | IcedSpear/src/main/java/com/stufy/fragmc/icedspear/managers/PartyManager.java:253-284 | The request is recorded exactly when the requester is in no party, the target is in one, and the two are friends. |
| `Parties.PartyManager.ExpireJoinRequest` | IcedSpear/src/main/java/com/stufy/fragmc/icedspear/managers/PartyManager.java:275-283 | The requester leaves the target's request set. |
| `Parties.PartyManager.AcceptJoinRequest` | IcedSpear/src/main/java/com/stufy/fragmc/icedspear/managers/PartyManager.java:286-313 | Only the party leader accepts. The request is kept otherwise, and is consumed before `joinParty`. |
| `Parties.PartyManager.TogglePartyChat` | IcedSpear/src/main/java/com/stufy/fragmc/icedspear/managers/PartyManager.java:315-323 | The player's flag flips. |
| `Parties.PartyManager.IsPartyChatEnabled` | IcedSpear/src/main/java/com/stufy/fragmc/icedspear/managers/PartyManager.java:325-327 | The answer is membership in the toggle set. |
| `Parties.PartyManager.SendPartyChat` | IcedSpear/src/main/java/com/stufy/fragmc/icedspear/managers/PartyManager.java:329-340 | A player in no party has the toggle cleared and reaches nobody. Otherwise the message reaches the party's online members, the sender included. |

## Left out

- World handling is left out: void-world creation, the chunk generator, world settings and game rules, world unload and folder deletion. These are Bukkit and file I/O, so a world is only a name attached by `AttachWorld`.
- The path where world creation fails is left out. The instance then stays CREATING with no no-join timer, which corresponds to calling none of the later provisioning methods.
- The gold-block scan queries world blocks. Its result is the `found` parameter of `ProvisionSucceeded`, and only the fallback spawn (0, 101, 0) is fixed by the model.
- Schematic lookup, download and paste (the schematic manager) are foreign calls. Their failure is `ProvisionFailed`, and their success is `ProvisionSucceeded`.
- Teleports, game-mode changes, flight and chat messages are left out. Chat recipients appear only where the recipient set is the result (`NotifyParty`, `SendPartyChat`).
- Scheduler delays, tick arithmetic and thread safety are left out. Each callback is a separate method, and concurrency is outside a sequential model.
- The YAML loading and saving of friends, leaderboards and the configuration file is left out. Each manager starts empty, and a missing configuration entry is `None`.
- Commands, listeners, the public API and plugin bootstrap are left out. They are user interface and event wiring.
- The action-bar updater of the timer manager is left out. So are the part of `stopTimer` after the run is recorded (messages, leaderboard submission, party broadcast) and the remaining getters of `TimerManager`.
- `Parties.PartyManager.GeneratePartyCode`: the random retry loop is a single choice among the free codes. It requires a free code to exist, because the source loops forever once all 10000 codes are taken.
- `Maps.MapManager.CreatePrivateMap`: the random UUID prefix is any eight lower-case hex digits.
- Java `long` and `int` overflow is not modelled. All integers are unbounded.
- `Config.ToUpperAscii`, and with it `Config.ParseGameMode` and `Config.ConfigManager.DefaultGameMode`, upper-case only the ASCII letters a-z and assume the root locale. Java's `toUpperCase` uses full Unicode case mapping and the default locale. Under a Turkish locale "survival" becomes "SURVİVAL", so the source answers ADVENTURE where the model answers SURVIVAL. Java also maps "ſurvival" to SURVIVAL, and "ß" to "SS", which changes the length.
- `Config.ConfigManager.IsMapGloballyBlocked` reads a flat key per map name, and the model assumes map names contain no '.'. The source stores the flag under the path `globally-blocked-maps.<map>` of a Bukkit configuration, where '.' separates sections. Blocking "a.b" there turns the entry for "a" into a section, after which "a" reads as not blocked.
- `Config.ConfigManager.BlockMapGlobally`: its claim that no other map's flag changes holds only for map names without '.', as above.
- `Config.ConfigManager.UnblockMapGlobally`: its claim that nothing else changes holds only for map names without '.', as above.
- `Entries.IntToString` writes ASCII digits and assumes the root locale. Java's `String.format` writes `%d` and `%02d` digits relative to the default locale's zero digit, so under a Persian locale the source writes '۰'-based digits. The same holds for `Entries.Pad2`, `Entries.FormattedTime`, `Timers.FormatTime` and `Parties.PartyCode`, listed below.
- `Entries.Pad2`: ASCII digits under the root locale, as above.
- `Entries.FormattedTime`: ASCII digits under the root locale, as above. Under another locale the display would not read back through `ReadClock`.
- `Timers.FormatTime`: ASCII digits under the root locale, as above.
- `Parties.PartyCode`: ASCII digits under the root locale, as above. Under another locale the source's code would not satisfy `IsPartyCode`, which `GeneratePartyCode` ensures.
- `Parties.PartyManager.InvitePlayer` and `Parties.PartyManager.AcceptJoinRequest` dereference the party without a null check. Under the invariant (`Valid`) the party always exists, so that failure cannot arise in the model.
- `Friends.FriendManager.AcceptJoinRequest` states the new map index and that a refusal leaves the accepter's instance untouched. What a successful `joinMap` does to the instance's sets and state is stated by `Maps.MapManager.JoinMap` and is not repeated.
- `Parties.PartyManager.FirePartyWarp` states only who moved in the map index. What `joinMap` does to each instance is stated by `Maps.MapManager.JoinMap` itself.
- The getters that return copies (`getPlayers`, `getWaitingPlayers`, `getMembers`, the friend-set getters) return values in Dafny, so a caller cannot alias them.
- Player lookups by name (`getPlayer(name)`) are `Option` parameters. Online checks use the `online` table.

## Findings

| source | as written | input that shows it | evidently intended | confidence | as-written member | corrected member |
|---|---|---|---|---|---|---|
| IcedSpear/src/main/java/com/stufy/fragmc/icedspear/managers/FriendManager.java:81-84 | `hasPendingRequest(targetId, senderId)` tests whether the sender already asked the target, then accepts on the target's behalf | player `a` calls `sendFriendRequest(a, b)` twice; `b` does nothing; `a` and `b` are then friends | the comment on line 82 says the auto-accept is for a target that already sent a request: `hasPendingRequest(senderId, targetId)` and `acceptFriendRequest(sender, target)` | high, not executed | `Friends.RepeatedRequestBefriends` | `Friends.FriendManager.SendFriendRequestIntended` |
