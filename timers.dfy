/** TimerManager: the per-player run timer (not started -> running -> finished).
    The clock is the parameter `now`; the action bar, chat messages, the
    leaderboard submission and the party broadcast are left out. */
module Timers {
  import opened Common
  import opened Entries

  /** Where one player's run stands. */
  datatype Phase = Idle | Running(start: int) | Finished(time: int)

  /** `formatTime`: the same integer formula as the leaderboard entry's
      display, `M:SS.CC` or `S.CC`. A non-negative duration reads back as
      itself truncated to the centisecond. */
  function FormatTime(milliseconds: int): (s: string)
    ensures milliseconds >= 0 ==>
      && ReadClock(s).Some?
      && ReadClock(s).value <= milliseconds < ReadClock(s).value + 10
  {
    var c := ClockOf(milliseconds);
    if milliseconds >= 0 then
      RenderReadsBack(c);
      Render(c)
    else Render(c)
  }

  class TimerManager {
    /** player -> start time */
    var activeTimers: map<Uuid, int>
    /** player -> finish time (the duration of the run) */
    var finishedPlayers: map<Uuid, int>
    /** players whose timer was started since their last reset */
    var started: set<Uuid>

    /** Nobody is running and finished at once; everybody with a timer has
        started. */
    ghost predicate Valid()
      reads this
    {
      && activeTimers.Keys !! finishedPlayers.Keys
      && activeTimers.Keys <= started
      && finishedPlayers.Keys <= started
    }

    constructor ()
      ensures Valid()
      ensures activeTimers == map[] && finishedPlayers == map[] && started == {}
    {
      activeTimers := map[];
      finishedPlayers := map[];
      started := {};
    }

    function PhaseOf(p: Uuid): (ph: Phase)
      reads this
      ensures ph.Idle? <==> p !in activeTimers && p !in finishedPlayers
      ensures ph.Running? ==> p in activeTimers && ph.start == activeTimers[p]
      ensures ph.Finished? ==> p in finishedPlayers && ph.time == finishedPlayers[p]
    {
      if p in finishedPlayers then Finished(finishedPlayers[p])
      else if p in activeTimers then Running(activeTimers[p])
      else Idle
    }

    /** `startTimer`: only an idle player starts; the start time is `now`. */
    method StartTimer(p: Uuid, now: int)
      requires Valid()
      modifies this
      ensures Valid()
      ensures old(PhaseOf(p)).Idle? ==>
        && activeTimers == old(activeTimers)[p := now]
        && finishedPlayers == old(finishedPlayers)
        && started == old(started) + {p}
      ensures !old(PhaseOf(p)).Idle? ==>
        activeTimers == old(activeTimers) && finishedPlayers == old(finishedPlayers) && started == old(started)
      ensures PhaseOf(p) == if old(PhaseOf(p)).Idle? then Running(now) else old(PhaseOf(p))
    {
      if p in finishedPlayers {
        return;
      }
      if p in activeTimers {
        return;
      }
      activeTimers := activeTimers[p := now];
      started := started + {p};
    }

    /** `stopTimer` up to the point where the run is recorded: only a running
        player stops; the recorded time is how long the timer had been
        running, and is answered (None when nothing happened). */
    method StopTimer(p: Uuid, now: int) returns (timeTaken: Option<int>)
      requires Valid()
      modifies this
      ensures Valid()
      ensures old(PhaseOf(p)).Running? ==>
        && timeTaken == Some(old(CurrentTime(p, now)))
        && finishedPlayers == old(finishedPlayers)[p := timeTaken.value]
        && activeTimers == old(activeTimers) - {p}
        && started == old(started)
      ensures !old(PhaseOf(p)).Running? ==>
        && timeTaken.None?
        && activeTimers == old(activeTimers) && finishedPlayers == old(finishedPlayers) && started == old(started)
      ensures PhaseOf(p) == match old(PhaseOf(p))
        case Running(start) => Finished(now - start)
        case other => other
    {
      if p !in activeTimers {
        return None;
      }
      if p in finishedPlayers {
        return None;
      }
      var startTime := activeTimers[p];
      var taken := now - startTime;
      finishedPlayers := finishedPlayers[p := taken];
      activeTimers := activeTimers - {p};
      timeTaken := Some(taken);
    }

    /** `resetPlayer`: the player is forgotten by all three collections, and
        no other player is touched. */
    method ResetPlayer(p: Uuid)
      requires Valid()
      modifies this
      ensures Valid()
      ensures activeTimers == old(activeTimers) - {p}
      ensures finishedPlayers == old(finishedPlayers) - {p}
      ensures started == old(started) - {p}
      ensures PhaseOf(p).Idle? && !HasStarted(p)
      ensures forall q :: q != p ==> PhaseOf(q) == old(PhaseOf(q)) && HasStarted(q) == old(HasStarted(q))
    {
      activeTimers := activeTimers - {p};
      finishedPlayers := finishedPlayers - {p};
      started := started - {p};
    }

    /** `hasFinished`: a finished player has started. */
    function HasFinished(p: Uuid): (b: bool)
      reads this
      ensures b <==> PhaseOf(p).Finished?
      ensures Valid() && b ==> HasStarted(p)
    {
      p in finishedPlayers
    }

    /** `hasStarted`: every running or finished player has started. */
    function HasStarted(p: Uuid): (b: bool)
      reads this
      ensures Valid() && !PhaseOf(p).Idle? ==> b
    {
      p in started
    }

    /** `getCurrentTime`: 0 without a running timer, else the elapsed time. */
    function CurrentTime(p: Uuid, now: int): (t: int)
      reads this
      ensures PhaseOf(p).Idle? ==> t == 0
      ensures PhaseOf(p).Running? ==> t == now - PhaseOf(p).start
      ensures p in activeTimers && activeTimers[p] <= now ==> t >= 0
    {
      if p !in activeTimers then 0 else now - activeTimers[p]
    }
  }
}
