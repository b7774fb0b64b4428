/**
 * The island tracker (src/services/islands.js). Every five minutes it reloads the
 * island calendar, keeps today's islands, and decides whether an island session
 * starts within the next 25 minutes (ISLAND_ALERT, with the session's start) or not
 * (ISLANDS_CLEANUP). Time is the server's, at a fixed offset of UTC-4.
 */
module Tracker {
  import opened Wrappers

  const HourMs: int := 3600000
  const MinuteMs: int := 60000

  /** The hours island sessions start at; the 15:00 one runs on weekends only. */
  const Schedules: seq<nat> := [11, 13, 15, 19, 21, 23]

  /**
   * A calendar line: the island, its rewards, the UTC day and month of its date, and
   * its `isSecondSchedule` column as read (the text "true" marks the afternoon).
   */
  datatype Island = Island(name: string, rewards: seq<string>, day: nat, month: nat, secondSchedule: string)

  /** The clock: local midnight (epoch ms), ms since it, weekday (0 = Sunday), date, month (1-12). */
  datatype Clock = Clock(dayStart: int, msOfDay: nat, weekday: nat, date: nat, month: nat)

  /** What a tick emits. */
  datatype Event = IslandAlert(islands: seq<Island>, upcoming: int) | IslandsCleanup

  /** A NOTIFY_ALERT: where it was raised and what it says. */
  datatype Alert = Alert(context: string, message: string)

  /** The cron job: none yet, or created (and running until stopped). */
  datatype Job = NoJob | Scheduled(running: bool)

  predicate Weekend(c: Clock) {
    c.weekday == 0 || c.weekday == 6
  }

  function HourOf(c: Clock): nat {
    c.msOfDay / HourMs
  }

  // ---------------------------------------------------------------------------
  // getDailyIslands.

  /** Dated today, and on weekends listed for the half of the day now running (after 15:59 or not). */
  predicate IsDaily(c: Clock, island: Island) {
    && island.day == c.date && island.month == c.month
    && (Weekend(c) ==> ((island.secondSchedule == "true") <==> HourOf(c) > 15))
  }

  /** `getDailyIslands`: the calendar lines for today, in calendar order. */
  function DailyIslands(islands: seq<Island>, c: Clock): (r: seq<Island>)
    ensures |r| <= |islands|
    ensures forall x :: x in r <==> x in islands && IsDaily(c, x)
  {
    if islands == [] then []
    else (if IsDaily(c, islands[0]) then [islands[0]] else []) + DailyIslands(islands[1..], c)
  }

  /** Picking today's islands out of today's islands changes nothing. */
  lemma {:induction false} DailyIslandsIdempotent(islands: seq<Island>, c: Clock)
    ensures DailyIslands(DailyIslands(islands, c), c) == DailyIslands(islands, c)
  {
    if islands != [] {
      DailyIslandsIdempotent(islands[1..], c);
      var rest := DailyIslands(islands[1..], c);
      if IsDaily(c, islands[0]) {
        var r := [islands[0]] + rest;
        assert r[0] == islands[0] && r[1..] == rest;
        assert DailyIslands(r, c) == [islands[0]] + DailyIslands(rest, c);
      } else {
        assert DailyIslands(islands, c) == [] + rest == rest;
      }
    }
  }

  // ---------------------------------------------------------------------------
  // isStartingSoon.

  /** moment's `diff(…, 'minutes')` from now to `hour` today: whole minutes, truncated toward zero. */
  function MinutesUntil(c: Clock, hour: nat): int {
    var ms := hour * HourMs - c.msOfDay;
    if ms >= 0 then ms / MinuteMs else -((-ms) / MinuteMs)
  }

  /** The test of `schedules.some`: a session of today that starts within 25 (whole) minutes. */
  predicate StartsSoon(c: Clock, hour: nat) {
    !(hour == 15 && !Weekend(c)) && 0 < MinutesUntil(c, hour) <= 25
  }

  /** In milliseconds: a session starts soon when it starts between one and 26 minutes from now. */
  lemma StartsSoonWindow(c: Clock, hour: nat)
    ensures StartsSoon(c, hour)
        <==> !(hour == 15 && !Weekend(c)) && MinuteMs <= hour * HourMs - c.msOfDay < 26 * MinuteMs
  {
    var ms := hour * HourMs - c.msOfDay;
    if ms >= 0 {
      assert MinuteMs <= ms < 26 * MinuteMs <==> 1 <= ms / MinuteMs <= 25;
    }
  }

  /** Sessions are two hours apart, so at most one of them starts soon. */
  lemma StartsSoonUnique(c: Clock, h1: nat, h2: nat)
    requires h1 in Schedules && h2 in Schedules
    requires StartsSoon(c, h1) && StartsSoon(c, h2)
    ensures h1 == h2
  {
    StartsSoonWindow(c, h1);
    StartsSoonWindow(c, h2);
  }

  /** The start (epoch ms) of the first session in `hours` that starts soon. */
  function Upcoming(c: Clock, hours: seq<nat>): (r: Option<int>)
    ensures r.Some? ==> exists h :: h in hours && StartsSoon(c, h) && r.value == c.dayStart + h * HourMs
    ensures r.None? <==> forall h :: h in hours ==> !StartsSoon(c, h)
  {
    if hours == [] then None
    else if StartsSoon(c, hours[0]) then Some(c.dayStart + hours[0] * HourMs)
    else Upcoming(c, hours[1..])
  }

  /** `isStartingSoon`'s scan of the schedule: the first session that starts soon. */
  method FindUpcoming(c: Clock, hours: seq<nat>) returns (r: Option<int>)
    ensures r == Upcoming(c, hours)
  {
    var i := 0;
    r := None;
    while i < |hours| && r.None?
      invariant 0 <= i <= |hours|
      invariant Upcoming(c, hours) == if r.Some? then r else Upcoming(c, hours[i..])
    {
      if StartsSoon(c, hours[i]) {
        r := Some(c.dayStart + hours[i] * HourMs);
      }
      assert hours[i..][1..] == hours[i + 1..];
      i := i + 1;
    }
    if r.None? {
      assert hours[i..] == [];
    }
  }

  /** What a tick emits over `islands` at `c`. */
  function TickEvent(islands: seq<Island>, c: Clock): Event {
    match Upcoming(c, Schedules)
    case Some(t) => IslandAlert(DailyIslands(islands, c), t)
    case None => IslandsCleanup
  }

  /** The tracker: the calendar last read, the cron job, and the NOTIFY_ALERTs raised. */
  class IslandTracker {
    var islands: seq<Island>
    var job: Job
    var alerts: seq<Alert>

    constructor ()
      ensures islands == [] && job == NoJob && alerts == []
    {
      islands := [];
      job := NoJob;
      alerts := [];
    }

    /** `setupTracker`: creates and starts the job, unless one already exists. */
    method SetupTracker() returns (started: bool)
      modifies this
      ensures started <==> old(job) == NoJob
      ensures job == if started then Scheduled(true) else old(job)
      ensures alerts == old(alerts) + if started then [] else [Alert("setupTracker", "Cron job already started")]
      ensures islands == old(islands)
    {
      if job != NoJob {
        alerts := alerts + [Alert("setupTracker", "Cron job already started")];
        return false;
      }
      job := Scheduled(true);
      started := true;
    }

    /** `stopTracker`: stops the job; the job stays, so a later `setupTracker` refuses. */
    method StopTracker()
      modifies this
      ensures job == if old(job) == NoJob then NoJob else Scheduled(false)
      ensures alerts == old(alerts) + if old(job) == NoJob then [Alert("stopTracker", "No active cron job found!")] else []
      ensures islands == old(islands)
    {
      if job == NoJob {
        alerts := alerts + [Alert("stopTracker", "No active cron job found!")];
        return;
      }
      job := Scheduled(false);
    }

    /**
     * `onTick`, with the calendar read from the file (None when the read fails) and
     * the clock as parameters.
     */
    method OnTick(calendar: Option<seq<Island>>, c: Clock) returns (e: Event)
      modifies this
      ensures islands == if calendar.Some? then calendar.value else old(islands)
      ensures alerts == old(alerts)
        + (if calendar.None? then [Alert("setIslands", "read failed")] else [])
        + (if islands == [] then [Alert("setupTracker - onTick", "No islands found in file")] else [])
      ensures job == old(job)
      ensures e == TickEvent(islands, c)
    {
      if calendar.Some? {
        islands := calendar.value;
      } else {
        alerts := alerts + [Alert("setIslands", "read failed")];
      }
      if |islands| == 0 {
        alerts := alerts + [Alert("setupTracker - onTick", "No islands found in file")];
      }
      var upcoming := FindUpcoming(c, Schedules);
      e := if upcoming.Some? then IslandAlert(DailyIslands(islands, c), upcoming.value) else IslandsCleanup;
    }
  }
}
