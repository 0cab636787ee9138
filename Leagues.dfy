/**
 * League configuration (kalshi/sports/leagues.py): the supported leagues,
 * lookup by code and the season calendar.
 */
module Leagues {
  import opened Common

  datatype LeagueCode = NFL | NBA | MLB | NHL | NCAAF | NCAAB | MLS | EPL

  datatype League = League(
    code: LeagueCode,
    name: string,
    kalshiSeries: string,
    typicalGameDurationMinutes: int,
    hasOvertime: bool,
    hasLiveMarkets: bool,
    seasonStartMonth: Option<int>,
    seasonEndMonth: Option<int>)

  /** `is_american`: every league except the EPL. */
  function IsAmerican(l: League): (r: bool)
    ensures r <==> l.code != EPL
  {
    assert l.code.NFL? || l.code.NBA? || l.code.MLB? || l.code.NHL? || l.code.NCAAF? || l.code.NCAAB? || l.code.MLS? || l.code.EPL?;
    l.code in {NFL, NBA, MLB, NHL, NCAAF, NCAAB, MLS}
  }

  /** The enum's string value. */
  function CodeName(c: LeagueCode): string
  {
    match c
    case NFL => "NFL"
    case NBA => "NBA"
    case MLB => "MLB"
    case NHL => "NHL"
    case NCAAF => "NCAAF"
    case NCAAB => "NCAAB"
    case MLS => "MLS"
    case EPL => "EPL"
  }

  /** `LeagueCode(value)`: the code whose string value is `s`, if any. */
  function ParseCode(s: string): (r: Option<LeagueCode>)
    ensures r.Some? ==> CodeName(r.value) == s
    ensures forall c: LeagueCode :: CodeName(c) == s ==> r == Some(c)
  {
    if s == "NFL" then Some(NFL)
    else if s == "NBA" then Some(NBA)
    else if s == "MLB" then Some(MLB)
    else if s == "NHL" then Some(NHL)
    else if s == "NCAAF" then Some(NCAAF)
    else if s == "NCAAB" then Some(NCAAB)
    else if s == "MLS" then Some(MLS)
    else if s == "EPL" then Some(EPL)
    else None
  }

  /** `str.upper` on ASCII letters. */
  function Upper(s: string): (r: string)
    ensures |r| == |s|
    ensures forall i :: 0 <= i < |s| ==> ('a' <= s[i] <= 'z' ==> r[i] as int == s[i] as int - 32)
    ensures forall i :: 0 <= i < |s| ==> (!('a' <= s[i] <= 'z') ==> r[i] == s[i])
  {
    if s == [] then []
    else
      var c := s[0];
      [if 'a' <= c <= 'z' then (c as int - 32) as char else c] + Upper(s[1..])
  }

  /** `SUPPORTED_LEAGUES`: six leagues are configured; MLS and EPL have a code but no configuration. */
  function Supported(c: LeagueCode): (r: Option<League>)
    ensures r.Some? <==> c !in {MLS, EPL}
    ensures r.Some? ==> r.value.code == c && r.value.seasonStartMonth.Some? && r.value.seasonEndMonth.Some?
  {
    match c
    case NFL => Some(League(NFL, "National Football League", "NFL", 180, true, true, Some(9), Some(2)))
    case NBA => Some(League(NBA, "National Basketball Association", "NBA", 150, true, true, Some(10), Some(6)))
    case MLB => Some(League(MLB, "Major League Baseball", "MLB", 180, true, true, Some(3), Some(10)))
    case NHL => Some(League(NHL, "National Hockey League", "NHL", 150, true, false, Some(10), Some(6)))
    case NCAAF => Some(League(NCAAF, "NCAA Football", "NCAAF", 210, true, false, Some(8), Some(1)))
    case NCAAB => Some(League(NCAAB, "NCAA Basketball", "NCAAB", 120, true, false, Some(11), Some(4)))
    case MLS => None
    case EPL => None
  }

  /**
   * `get_league`: the configuration of the league whose code is the
   * upper-cased argument; None for an unknown code and for a code with
   * no configuration.
   */
  function GetLeague(code: string): (r: Option<League>)
    ensures r.Some? ==> CodeName(r.value.code) == Upper(code) && r.value.code !in {MLS, EPL}
    ensures r.None? <==> ParseCode(Upper(code)).None? || ParseCode(Upper(code)).value in {MLS, EPL}
  {
    match ParseCode(Upper(code))
    case None => None
    case Some(c) => Supported(c)
  }

  /** Lookup ignores the case of the code. */
  lemma GetLeagueIgnoresCase()
    ensures GetLeague("nfl") == GetLeague("NFL") == Supported(NFL)
  {
    assert "nfl"[1..] == "fl" && "fl"[1..] == "l" && "l"[1..] == [];
    assert "NFL"[1..] == "FL" && "FL"[1..] == "L" && "L"[1..] == [];
    assert Upper("l") == "L";
    assert Upper("fl") == "FL";
    assert Upper("L") == "L";
    assert Upper("FL") == "FL";
  }

  /**
   * `is_league_in_season`: always when a bound is missing; between the
   * bounds for a season within one year; from the start month on or up
   * to the end month for a season across the new year.
   */
  function IsLeagueInSeason(l: League, month: int): (r: bool)
    ensures l.seasonStartMonth.None? || l.seasonEndMonth.None? ==> r
    ensures l.seasonStartMonth.Some? && l.seasonEndMonth.Some? && l.seasonStartMonth.value <= l.seasonEndMonth.value ==>
              (r <==> l.seasonStartMonth.value <= month <= l.seasonEndMonth.value)
    ensures l.seasonStartMonth.Some? && l.seasonEndMonth.Some? && l.seasonStartMonth.value > l.seasonEndMonth.value ==>
              (r <==> month >= l.seasonStartMonth.value || month <= l.seasonEndMonth.value)
  {
    match (l.seasonStartMonth, l.seasonEndMonth)
    case (Some(start), Some(end)) =>
      if start <= end then start <= month <= end else month >= start || month <= end
    case _ => true
  }

  /** The football season runs across the new year: in season in January and September, not in June. */
  lemma FootballSeasonWraps()
    ensures var nfl := Supported(NFL).value;
            IsLeagueInSeason(nfl, 1) && IsLeagueInSeason(nfl, 9) && !IsLeagueInSeason(nfl, 6)
  {
  }

  /** A season across the new year is the complement of the off-season between its bounds. */
  lemma WrappingSeasonIsComplement(l: League, month: int)
    requires l.seasonStartMonth.Some? && l.seasonEndMonth.Some?
    requires l.seasonEndMonth.value < l.seasonStartMonth.value
    ensures !IsLeagueInSeason(l, month) <==> l.seasonEndMonth.value < month < l.seasonStartMonth.value
  {
  }
}
