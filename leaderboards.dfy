/** LeaderboardManager: per-map best times, sorted ascending, one entry per
    player, at most 100 entries. Loading and saving the YAML file are left out. */
module Leaderboards {
  import opened Common
  import opened Entries

  /** "Keep only top 100" */
  const Capacity: nat := 100

  predicate SortedByTime(s: seq<LeaderboardEntry>) {
    forall i, j :: 0 <= i < j < |s| ==> s[i].time <= s[j].time
  }

  predicate UniquePlayers(s: seq<LeaderboardEntry>) {
    forall i, j :: 0 <= i < j < |s| ==> s[i].playerId != s[j].playerId
  }

  /** Position of the player's first entry, -1 when there is none. */
  function IndexOf(s: seq<LeaderboardEntry>, id: Uuid): (i: int)
    ensures -1 <= i < |s|
    ensures i >= 0 ==> s[i].playerId == id && forall j :: 0 <= j < i ==> s[j].playerId != id
    ensures i == -1 ==> forall j :: 0 <= j < |s| ==> s[j].playerId != id
  {
    if s == [] then -1
    else if s[0].playerId == id then 0
    else
      var k := IndexOf(s[1..], id);
      if k == -1 then -1 else k + 1
  }

  /** The 1-based rank of the player, -1 when absent. */
  function RankOf(s: seq<LeaderboardEntry>, id: Uuid): (rank: int)
    ensures rank == -1 || 1 <= rank <= |s|
    ensures rank >= 1 ==> s[rank - 1].playerId == id
    ensures rank == -1 <==> forall j :: 0 <= j < |s| ==> s[j].playerId != id
  {
    var i := IndexOf(s, id);
    if i == -1 then -1 else i + 1
  }

  /** Index of the first entry whose time is strictly greater than `e`'s. */
  function InsertionPoint(s: seq<LeaderboardEntry>, e: LeaderboardEntry): (k: nat)
    ensures k <= |s|
    ensures k < |s| ==> e.time < s[k].time
  {
    if s == [] || e.time < s[0].time then 0 else 1 + InsertionPoint(s[1..], e)
  }

  lemma {:induction false} BeforeInsertionPoint(s: seq<LeaderboardEntry>, e: LeaderboardEntry)
    ensures forall j :: 0 <= j < InsertionPoint(s, e) ==> s[j].time <= e.time
  {
    if s != [] && e.time >= s[0].time {
      var t := s[1..];
      BeforeInsertionPoint(t, e);
      forall j | 0 <= j < InsertionPoint(s, e) ensures s[j].time <= e.time {
        if j > 0 { assert s[j] == t[j - 1]; }
      }
    }
  }

  /** Inserts `e` in front of the first entry with a strictly greater time,
      that is after every entry it ties with. */
  function Insert(s: seq<LeaderboardEntry>, e: LeaderboardEntry): (r: seq<LeaderboardEntry>)
    ensures |r| == |s| + 1
  {
    var k := InsertionPoint(s, e);
    s[..k] + [e] + s[k..]
  }

  /** Inserting adds exactly the one entry. */
  lemma InsertPermutes(s: seq<LeaderboardEntry>, e: LeaderboardEntry)
    ensures multiset(Insert(s, e)) == multiset(s) + multiset{e}
  {
    var k := InsertionPoint(s, e);
    assert s == s[..k] + s[k..];
  }

  lemma InsertIndex(s: seq<LeaderboardEntry>, e: LeaderboardEntry)
    ensures var k := InsertionPoint(s, e); var r := Insert(s, e);
      && r[k] == e
      && (forall i :: 0 <= i < k ==> r[i] == s[i])
      && (forall i :: k < i < |r| ==> r[i] == s[i - 1])
  {
  }

  lemma InsertSorted(s: seq<LeaderboardEntry>, e: LeaderboardEntry)
    requires SortedByTime(s)
    ensures SortedByTime(Insert(s, e))
  {
    InsertIndex(s, e);
    BeforeInsertionPoint(s, e);
  }

  /** `entries.sort(Comparator.comparingLong(LeaderboardEntry::getTime))`:
      a stable sort by time, written as an insertion sort from left to right
      (equal times keep their original order). */
  function SortByTime(s: seq<LeaderboardEntry>): (r: seq<LeaderboardEntry>)
    ensures |r| == |s|
  {
    if s == [] then []
    else Insert(SortByTime(s[..|s| - 1]), s[|s| - 1])
  }

  /** The sort's result is ordered by time. */
  lemma {:induction false} SortByTimeSorted(s: seq<LeaderboardEntry>)
    ensures SortedByTime(SortByTime(s))
  {
    if s != [] {
      var p := s[..|s| - 1];
      SortByTimeSorted(p);
      InsertSorted(SortByTime(p), s[|s| - 1]);
    }
  }

  /** The sort is a permutation: it keeps every entry as often as it occurs. */
  lemma {:induction false} SortByTimePermutes(s: seq<LeaderboardEntry>)
    ensures multiset(SortByTime(s)) == multiset(s)
  {
    if s != [] {
      var p, x := s[..|s| - 1], s[|s| - 1];
      var q := SortByTime(p);
      calc {
        multiset(SortByTime(s));
        multiset(Insert(q, x));
        { InsertPermutes(q, x); }
        multiset(q) + multiset{x};
        { SortByTimePermutes(p); }
        multiset(p) + multiset{x};
        multiset(p + [x]);
        { assert p + [x] == s; }
        multiset(s);
      }
    }
  }

  /** Inserting adds the one entry and loses none. */
  lemma InsertMembers(s: seq<LeaderboardEntry>, e: LeaderboardEntry)
    ensures forall x :: x in Insert(s, e) <==> x in s || x == e
  {
    var k := InsertionPoint(s, e);
    assert s == s[..k] + s[k..];
  }

  /** The sorted list holds exactly the entries of its input. */
  lemma {:induction false} SortSameMembers(s: seq<LeaderboardEntry>)
    ensures forall x :: x in SortByTime(s) <==> x in s
  {
    if s != [] {
      var p, x := s[..|s| - 1], s[|s| - 1];
      SortSameMembers(p);
      InsertMembers(SortByTime(p), x);
      assert s == p + [x];
    }
  }

  lemma {:induction false} InsertionPointOfLast(s: seq<LeaderboardEntry>, e: LeaderboardEntry)
    requires forall j :: 0 <= j < |s| ==> s[j].time <= e.time
    ensures InsertionPoint(s, e) == |s|
  {
    if s != [] {
      InsertionPointOfLast(s[1..], e);
    }
  }

  /** Sorting an already sorted list changes nothing. */
  lemma {:induction false} SortSortedIsIdentity(s: seq<LeaderboardEntry>)
    requires SortedByTime(s)
    ensures SortByTime(s) == s
  {
    if s != [] {
      var p := s[..|s| - 1];
      assert SortedByTime(p);
      SortSortedIsIdentity(p);
      InsertionPointOfLast(p, s[|s| - 1]);
      assert p + [s[|s| - 1]] == s;
    }
  }

  /** `addTime` appends the new entry to a sorted list and sorts: the entry
      lands after every existing entry with the same time, so a tying newcomer
      ranks behind the players who set that time first. */
  lemma NewcomerRanksAfterTies(s: seq<LeaderboardEntry>, e: LeaderboardEntry)
    requires SortedByTime(s)
    ensures var k := InsertionPoint(s, e);
      && SortByTime(s + [e]) == s[..k] + [e] + s[k..]
      && (forall j :: 0 <= j < k ==> s[j].time <= e.time)
      && (forall j :: k <= j < |s| ==> e.time < s[j].time)
  {
    assert (s + [e])[..|s|] == s;
    SortSortedIsIdentity(s);
    BeforeInsertionPoint(s, e);
  }

  lemma InsertUnique(s: seq<LeaderboardEntry>, e: LeaderboardEntry)
    requires UniquePlayers(s)
    requires forall j :: 0 <= j < |s| ==> s[j].playerId != e.playerId
    ensures UniquePlayers(Insert(s, e))
  {
    InsertIndex(s, e);
  }

  lemma {:induction false} SortUnique(s: seq<LeaderboardEntry>)
    requires UniquePlayers(s)
    ensures UniquePlayers(SortByTime(s))
  {
    if s != [] {
      var p := s[..|s| - 1];
      var e := s[|s| - 1];
      SortUnique(p);
      var q := SortByTime(p);
      forall j | 0 <= j < |q| ensures q[j].playerId != e.playerId {
        SortSameMembers(p);
        assert q[j] in p;
        var i :| 0 <= i < |p| && p[i] == q[j];
      }
      InsertUnique(q, e);
    }
  }

  function RemoveAt(s: seq<LeaderboardEntry>, i: nat): (r: seq<LeaderboardEntry>)
    requires i < |s|
    ensures |r| == |s| - 1
  {
    s[..i] + s[i + 1..]
  }

  /** The list `addTime` leaves behind: the player's old entry is replaced by
      `e` only when there is none or `e` is strictly faster; the result is
      re-sorted and cut to the first 100. */
  function Updated(s: seq<LeaderboardEntry>, e: LeaderboardEntry): (r: seq<LeaderboardEntry>)
    ensures r == s || |r| <= Capacity
    ensures |r| <= |s| + 1
  {
    var i := IndexOf(s, e.playerId);
    if i == -1 || e.time < s[i].time then
      Truncated(SortByTime((if i == -1 then s else RemoveAt(s, i)) + [e]))
    else s
  }

  /** "Keep only top 100": the first 100 entries of a longer list. */
  function Truncated(s: seq<LeaderboardEntry>): (r: seq<LeaderboardEntry>)
    ensures |r| <= Capacity && |r| <= |s|
    ensures r == s[..|r|]
    ensures |s| <= Capacity ==> r == s
  {
    if |s| > Capacity then s[..Capacity] else s
  }

  lemma AddTimeKeepsSorted(s: seq<LeaderboardEntry>, e: LeaderboardEntry)
    requires SortedByTime(s)
    ensures SortedByTime(Updated(s, e))
  {
    var i := IndexOf(s, e.playerId);
    if i == -1 || e.time < s[i].time {
      SortByTimeSorted((if i == -1 then s else RemoveAt(s, i)) + [e]);
    }
  }

  /** A list is never longer than 100 after a time is recorded, unless the call
      left it exactly as it was. */
  lemma AddTimeCapped(s: seq<LeaderboardEntry>, e: LeaderboardEntry)
    ensures Updated(s, e) == s || |Updated(s, e)| <= Capacity
    ensures |s| <= Capacity ==> |Updated(s, e)| <= Capacity
  {
  }

  lemma RemoveAtUnique(s: seq<LeaderboardEntry>, i: nat)
    requires i < |s| && UniquePlayers(s)
    ensures UniquePlayers(RemoveAt(s, i))
    ensures forall j :: 0 <= j < |s| - 1 ==> RemoveAt(s, i)[j].playerId != s[i].playerId
  {
    var r := RemoveAt(s, i);
    forall a, b | 0 <= a < b < |r| ensures r[a].playerId != r[b].playerId {
      var a' := if a < i then a else a + 1;
      var b' := if b < i then b else b + 1;
      assert r[a] == s[a'] && r[b] == s[b'];
    }
    forall j | 0 <= j < |r| ensures r[j].playerId != s[i].playerId {
      var j' := if j < i then j else j + 1;
      assert r[j] == s[j'];
    }
  }

  lemma AppendUnique(rest: seq<LeaderboardEntry>, e: LeaderboardEntry)
    requires UniquePlayers(rest)
    requires forall k :: 0 <= k < |rest| ==> rest[k].playerId != e.playerId
    ensures UniquePlayers(rest + [e])
  {
    var u := rest + [e];
    forall a, b | 0 <= a < b < |u| ensures u[a].playerId != u[b].playerId {
      assert u[a] == rest[a];
      if b < |rest| {
        assert u[b] == rest[b];
      }
    }
  }

  lemma PrefixUnique(s: seq<LeaderboardEntry>, n: nat)
    requires UniquePlayers(s) && n <= |s|
    ensures UniquePlayers(s[..n])
  {
    var p := s[..n];
    forall a, b | 0 <= a < b < |p| ensures p[a].playerId != p[b].playerId {
      assert p[a] == s[a] && p[b] == s[b];
    }
  }

  /** The board built from a list without the player and the player's new
      entry keeps one entry per player. */
  lemma NewBoardUnique(rest: seq<LeaderboardEntry>, e: LeaderboardEntry)
    requires UniquePlayers(rest)
    requires forall k :: 0 <= k < |rest| ==> rest[k].playerId != e.playerId
    ensures UniquePlayers(Truncated(SortByTime(rest + [e])))
  {
    AppendUnique(rest, e);
    SortUnique(rest + [e]);
    var sorted := SortByTime(rest + [e]);
    PrefixUnique(sorted, |Truncated(sorted)|);
  }

  /** At most one entry per player survives every `addTime`. */
  lemma AddTimeKeepsUnique(s: seq<LeaderboardEntry>, e: LeaderboardEntry)
    requires UniquePlayers(s)
    ensures UniquePlayers(Updated(s, e))
  {
    var i := IndexOf(s, e.playerId);
    if i == -1 || e.time < s[i].time {
      var rest := if i == -1 then s else RemoveAt(s, i);
      if i != -1 { RemoveAtUnique(s, i); }
      NewBoardUnique(rest, e);
    }
  }

  /** When no other entry carries the newcomer's id, the only entry with that
      id after sorting is the newcomer itself. */
  lemma OnlyNewcomerHasId(rest: seq<LeaderboardEntry>, e: LeaderboardEntry, j: nat)
    requires forall k :: 0 <= k < |rest| ==> rest[k].playerId != e.playerId
    requires j < |SortByTime(rest + [e])| && SortByTime(rest + [e])[j].playerId == e.playerId
    ensures SortByTime(rest + [e])[j] == e
  {
    var x := SortByTime(rest + [e])[j];
    SortSameMembers(rest + [e]);
    assert x in rest + [e];
  }

  /** When the newcomer is the only entry with its id, whatever entry with
      that id survives the sort and the cut to 100 is the newcomer. */
  lemma SurvivorIsNewcomer(rest: seq<LeaderboardEntry>, e: LeaderboardEntry)
    requires forall k :: 0 <= k < |rest| ==> rest[k].playerId != e.playerId
    ensures var r := Truncated(SortByTime(rest + [e]));
      IndexOf(r, e.playerId) != -1 ==> r[IndexOf(r, e.playerId)] == e
  {
    var sorted := SortByTime(rest + [e]);
    var r := Truncated(sorted);
    var i := IndexOf(r, e.playerId);
    if i != -1 {
      assert r[i] == sorted[i];
      OnlyNewcomerHasId(rest, e, i);
    }
  }

  /** After `addTime` the player's recorded time is the better of the old one
      and the new one; a slower or equal time leaves the list unchanged. */
  lemma AddTimeRecordsBest(s: seq<LeaderboardEntry>, e: LeaderboardEntry)
    requires UniquePlayers(s)
    ensures var old_i := IndexOf(s, e.playerId);
      old_i != -1 && e.time >= s[old_i].time ==> Updated(s, e) == s
    ensures var r := Updated(s, e); var i := IndexOf(r, e.playerId); var old_i := IndexOf(s, e.playerId);
      i != -1 ==> r[i].time == (if old_i != -1 && s[old_i].time <= e.time then s[old_i].time else e.time)
  {
    var old_i := IndexOf(s, e.playerId);
    if old_i == -1 || e.time < s[old_i].time {
      var rest := if old_i == -1 then s else RemoveAt(s, old_i);
      if old_i != -1 { RemoveAtUnique(s, old_i); }
      SurvivorIsNewcomer(rest, e);
    }
  }

  /** With room on the board, the newcomer survives the sort and the cut. */
  lemma NewcomerListed(rest: seq<LeaderboardEntry>, e: LeaderboardEntry)
    requires |rest| < Capacity
    ensures RankOf(Truncated(SortByTime(rest + [e])), e.playerId) != -1
  {
    var sorted := SortByTime(rest + [e]);
    SortSameMembers(rest + [e]);
    assert e in rest + [e];
    var k :| 0 <= k < |sorted| && sorted[k] == e;
    assert Truncated(sorted)[k].playerId == e.playerId;
  }

  /** `addTime` answers -1 only when the newcomer was cut off a full list. */
  lemma AddTimeRankMissingOnlyWhenFull(s: seq<LeaderboardEntry>, e: LeaderboardEntry)
    ensures RankOf(Updated(s, e), e.playerId) == -1 ==> |s| >= Capacity
  {
    var i := IndexOf(s, e.playerId);
    if |s| < Capacity {
      if i == -1 || e.time < s[i].time {
        NewcomerListed(if i == -1 then s else RemoveAt(s, i), e);
      } else {
        assert Updated(s, e) == s;
      }
    }
  }

  /** The player search loop shared by `addTime`, `getPlayerTime` and
      `getPlayerRank`. */
  method FindPlayer(entries: seq<LeaderboardEntry>, id: Uuid) returns (i: int)
    ensures i == IndexOf(entries, id)
  {
    var k := 0;
    while k < |entries|
      invariant 0 <= k <= |entries|
      invariant forall j :: 0 <= j < k ==> entries[j].playerId != id
    {
      if entries[k].playerId == id {
        return k;
      }
      k := k + 1;
    }
    return -1;
  }

  /** The list manipulation inside `addTime`. */
  method UpdatedList(entries: seq<LeaderboardEntry>, e: LeaderboardEntry) returns (r: seq<LeaderboardEntry>)
    ensures r == Updated(entries, e)
  {
    r := entries;
    var existing := FindPlayer(r, e.playerId);
    if existing == -1 || e.time < r[existing].time {
      if existing != -1 {
        r := r[..existing] + r[existing + 1..];
        assert r == RemoveAt(entries, existing);
      }
      ghost var rest := r;
      r := r + [e];
      r := SortByTime(r);
      assert r == SortByTime(rest + [e]);
      if |r| > Capacity {
        r := r[..Capacity];
      }
    }
  }

  /** A board as `addTime` keeps it: sorted by time, one entry per player,
      at most 100 entries. */
  ghost predicate WellFormedBoard(s: seq<LeaderboardEntry>) {
    SortedByTime(s) && UniquePlayers(s) && |s| <= Capacity
  }

  /** The three board invariants together survive every `addTime`. */
  lemma AddTimeKeepsWellFormed(s: seq<LeaderboardEntry>, e: LeaderboardEntry)
    requires WellFormedBoard(s)
    ensures WellFormedBoard(Updated(s, e))
  {
    AddTimeKeepsSorted(s, e);
    AddTimeKeepsUnique(s, e);
    AddTimeCapped(s, e);
  }

  /** The body of `addTime` on one board: the updated list and the rank the
      player then holds. */
  method RecordTime(board: seq<LeaderboardEntry>, e: LeaderboardEntry) returns (entries: seq<LeaderboardEntry>, rank: int)
    requires WellFormedBoard(board)
    ensures entries == Updated(board, e) && WellFormedBoard(entries)
    ensures rank == RankOf(entries, e.playerId)
    ensures rank == -1 ==> |board| >= Capacity
  {
    entries := UpdatedList(board, e);
    AddTimeKeepsWellFormed(board, e);
    AddTimeRankMissingOnlyWhenFull(board, e);
    var i := FindPlayer(entries, e.playerId);
    rank := if i == -1 then -1 else i + 1;
  }

  class LeaderboardManager {
    /** map name -> entries */
    var leaderboards: map<string, seq<LeaderboardEntry>>

    ghost predicate Valid()
      reads this
    {
      forall m :: m in leaderboards ==> WellFormedBoard(leaderboards[m])
    }

    /** Starts with no leaderboards (the file loader is left out). */
    constructor ()
      ensures Valid() && leaderboards == map[]
    {
      leaderboards := map[];
    }

    function Board(mapName: string): seq<LeaderboardEntry>
      reads this
    {
      if mapName in leaderboards then leaderboards[mapName] else []
    }

    /** `addTime`: records the time if it is the player's first or a strict
        improvement and answers the player's 1-based rank (-1 when cut off). */
    method AddTime(mapName: string, playerId: Uuid, playerName: string, time: int, now: int) returns (rank: int)
      requires Valid()
      modifies this
      ensures Valid()
      ensures leaderboards ==
        old(leaderboards)[mapName := Updated(old(Board(mapName)), LeaderboardEntry(playerId, playerName, time, now))]
      ensures rank == RankOf(leaderboards[mapName], playerId)
      ensures rank == -1 ==> |old(Board(mapName))| >= Capacity
    {
      var board := Board(mapName);
      var entries;
      entries, rank := RecordTime(board, LeaderboardEntry(playerId, playerName, time, now));
      leaderboards := leaderboards[mapName := entries];
      forall m | m in leaderboards ensures WellFormedBoard(leaderboards[m]) {
        if m != mapName {
          assert leaderboards[m] == old(leaderboards)[m];
        }
      }
    }

    /** `getTopTimes`: the first `limit` entries. A negative limit on a
        non-empty list makes `Stream.limit` throw, modelled as None. */
    function TopTimes(mapName: string, limit: int): (r: Option<seq<LeaderboardEntry>>)
      reads this
      ensures r.None? <==> Board(mapName) != [] && limit < 0
      ensures r.Some? ==> |r.value| <= |Board(mapName)| && r.value == Board(mapName)[..|r.value|]
      ensures r.Some? && 0 <= limit <= |Board(mapName)| ==> |r.value| == limit
      ensures r.Some? && limit >= |Board(mapName)| ==> r.value == Board(mapName)
    {
      var entries := Board(mapName);
      if entries == [] then Some([])
      else if limit < 0 then None
      else if limit < |entries| then Some(entries[..limit])
      else Some(entries)
    }

    /** `getPlayerTime`: the player's best time, -1 when absent. */
    method GetPlayerTime(mapName: string, playerId: Uuid) returns (t: int)
      ensures var b := Board(mapName); var i := IndexOf(b, playerId);
        t == if i == -1 then -1 else b[i].time
    {
      if mapName !in leaderboards {
        return -1;
      }
      var entries := leaderboards[mapName];
      var i := FindPlayer(entries, playerId);
      t := if i == -1 then -1 else entries[i].time;
    }

    /** `getPlayerRank`: the 1-based position, -1 when absent. */
    method GetPlayerRank(mapName: string, playerId: Uuid) returns (rank: int)
      ensures rank == RankOf(Board(mapName), playerId)
      ensures rank >= 1 ==> Board(mapName)[rank - 1].playerId == playerId
    {
      if mapName !in leaderboards {
        return -1;
      }
      var entries := leaderboards[mapName];
      assert leaderboards[mapName] == entries;
      var i := FindPlayer(entries, playerId);
      rank := if i == -1 then -1 else i + 1;
    }
  }
}
