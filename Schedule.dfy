/**
 * Game timing (kalshi/sports/schedule.py): a game's effective kickoff
 * time and the regime the time left before kickoff falls into. Times are
 * whole seconds and "now" is a parameter.
 */
module Schedule {
  import opened Common

  /** The time regimes before and after kickoff. */
  datatype KickoffWindow = Far | Approaching | Imminent | Live

  /** How far from kickoff a window lies: live is 0, far is 3. */
  function Distance(w: KickoffWindow): nat
  {
    match w
    case Live => 0
    case Imminent => 1
    case Approaching => 2
    case Far => 3
  }

  /**
   * `get_window_for_seconds`: live before 0, imminent up to 10 minutes,
   * approaching up to 2 hours, far beyond.
   */
  function WindowForSeconds(seconds: int): (w: KickoffWindow)
    ensures w == Live <==> seconds < 0
    ensures w == Imminent <==> 0 <= seconds <= 600
    ensures w == Approaching <==> 600 < seconds <= 7200
    ensures w == Far <==> 7200 < seconds
  {
    if seconds < 0 then Live
    else if seconds <= 600 then Imminent
    else if seconds <= 7200 then Approaching
    else Far
  }

  /** More time to kickoff never gives a window closer to kickoff. */
  lemma WindowMonotone(s1: int, s2: int)
    requires s1 <= s2
    ensures Distance(WindowForSeconds(s1)) <= Distance(WindowForSeconds(s2))
  {
  }

  datatype GameSchedule = GameSchedule(
    eventId: string,
    league: string,
    homeTeam: string,
    awayTeam: string,
    scheduledStart: int,
    venue: Option<string>,
    isPostponed: bool,
    isCancelled: bool,
    actualStart: Option<int>)

  /** `kickoff_time`: the actual start once known, otherwise the scheduled one. */
  function KickoffTime(g: GameSchedule): (t: int)
    ensures g.actualStart.Some? ==> t == g.actualStart.value
    ensures g.actualStart.None? ==> t == g.scheduledStart
  {
    g.actualStart.GetOr(g.scheduledStart)
  }

  /** `seconds_to_kickoff`: negative once the game has started. */
  function SecondsToKickoff(g: GameSchedule, now: int): (s: int)
    ensures s < 0 <==> now > KickoffTime(g)
    ensures s + now == KickoffTime(g)
  {
    KickoffTime(g) - now
  }

  /** `get_kickoff_window`: its own thresholds agree with `get_window_for_seconds` at every instant. */
  function GetKickoffWindow(g: GameSchedule, now: int): (w: KickoffWindow)
    ensures w == WindowForSeconds(SecondsToKickoff(g, now))
  {
    var seconds := SecondsToKickoff(g, now);
    if seconds < 0 then Live
    else if seconds <= 600 then Imminent
    else if seconds <= 7200 then Approaching
    else Far
  }

  /** As time passes a game's window only moves closer to kickoff. */
  lemma KickoffWindowAdvances(g: GameSchedule, now1: int, now2: int)
    requires now1 <= now2
    ensures Distance(GetKickoffWindow(g, now2)) <= Distance(GetKickoffWindow(g, now1))
  {
    WindowMonotone(SecondsToKickoff(g, now2), SecondsToKickoff(g, now1));
  }
}
