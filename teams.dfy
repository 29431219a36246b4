/**
 * The team registry endpoints: listing teams ordered by name and season,
 * creating a team unless its (name, season) pair is taken, and fetching a
 * team by id. Errors are the HTTP exceptions the router raises directly.
 */
module TeamsRouter {
  import opened Wrappers
  import opened Seqs
  import opened Strings
  import opened Models
  import opened Errors
  import Store

  /** `ORDER BY name, season`. */
  predicate TeamLe(a: Team, b: Team) {
    if a.name == b.name then LexLe(a.season, b.season) else LexLe(a.name, b.name)
  }

  lemma TeamLeConnected()
    ensures Connected(TeamLe)
  {
    forall a: Team, b: Team ensures TeamLe(a, b) || TeamLe(b, a) {
      LexLeTotal(a.name, b.name);
      LexLeTotal(a.season, b.season);
    }
  }

  lemma TeamLeTransitive(a: Team, b: Team, c: Team)
    requires TeamLe(a, b) && TeamLe(b, c)
    ensures TeamLe(a, c)
  {
    if a.name == b.name && b.name == c.name {
      LexLeTransitive(a.season, b.season, c.season);
    } else if a.name == b.name {
      assert LexLe(a.name, c.name);
    } else if b.name == c.name {
      assert LexLe(a.name, c.name);
    } else {
      LexLeTransitive(a.name, b.name, c.name);
      if a.name == c.name {
        LexLeAntisymmetric(a.name, b.name);
      }
    }
  }

  /** Ordered neighbour by neighbour is ordered pair by pair. */
  lemma {:induction false} SortedTeamsPairwise(s: seq<Team>)
    requires SortedBy(s, TeamLe)
    ensures forall i, j :: 0 <= i < j < |s| ==> TeamLe(s[i], s[j])
  {
    if |s| > 1 {
      SortedTeamsPairwise(s[1..]);
      forall j | 1 < j < |s| ensures TeamLe(s[0], s[j]) {
        assert TeamLe(s[1], s[j]) by { assert s[1] == s[1..][0] && s[j] == s[1..][j - 1]; }
        TeamLeTransitive(s[0], s[1], s[j]);
      }
      forall i, j | 0 < i < j < |s| ensures TeamLe(s[i], s[j]) {
        assert s[i] == s[1..][i - 1] && s[j] == s[1..][j - 1];
      }
    }
  }

  /** `list_teams`: every team exactly once, ordered by name and then season. */
  method ListTeams(db: Store.Session) returns (teams: seq<Team>)
    ensures multiset(teams) == multiset(db.teams)
    ensures forall i, j :: 0 <= i < j < |teams| ==> TeamLe(teams[i], teams[j])
  {
    TeamLeConnected();
    teams := Sort(db.teams, TeamLe);
    SortedTeamsPairwise(teams);
  }

  /** `select(Team).where(name == ..., season == ...).first()`. */
  function FindTeam(teams: seq<Team>, name: string, season: string): (r: Option<Team>)
    ensures r.Some? ==> r.value in teams && r.value.name == name && r.value.season == season
    ensures r.None? <==> forall i :: 0 <= i < |teams| ==> teams[i].name != name || teams[i].season != season
  {
    match First(teams, (t: Team) => t.name == name && t.season == season)
    case Some(i) => Some(teams[i])
    case None => None
  }

  /** No two teams share a name and a season: what the router alone keeps true. */
  predicate UniqueNameSeason(teams: seq<Team>) {
    forall i, j :: 0 <= i < j < |teams| ==> teams[i].name != teams[j].name || teams[i].season != teams[j].season
  }

  /** Adding a team whose pair is free keeps the pairs unique. */
  lemma AddKeepsUnique(teams: seq<Team>, team: Team)
    requires UniqueNameSeason(teams)
    requires FindTeam(teams, team.name, team.season).None?
    ensures UniqueNameSeason(teams + [team])
  {
    var all := teams + [team];
    forall i, j | 0 <= i < j < |all| ensures all[i].name != all[j].name || all[i].season != all[j].season {
      if j == |teams| {
        assert all[i] == teams[i];
      } else {
        assert all[i] == teams[i] && all[j] == teams[j];
      }
    }
  }

  /** A team of another season does not block the name: only the exact pair conflicts. */
  lemma OtherSeasonDoesNotConflict(teams: seq<Team>, team: Team, season: string)
    requires team.season != season
    ensures FindTeam(teams + [team], team.name, season) == FindTeam(teams, team.name, season)
  {
    var all := teams + [team];
    var p := (t: Team) => t.name == team.name && t.season == season;
    assert !p(team);
    match First(teams, p)
    case Some(i) =>
      assert all[i] == teams[i];
      assert forall j :: 0 <= j < i ==> all[j] == teams[j];
    case None =>
      assert forall j :: 0 <= j < |all| ==> !p(all[j]) by {
        forall j | 0 <= j < |all| ensures !p(all[j]) {
          if j < |teams| { assert all[j] == teams[j]; }
        }
      }
  }

  function ConflictDetail(name: string, season: string): string {
    "Team '" + name + "' already exists for season '" + season + "'"
  }

  /**
   * `create_team`: 409 when the (name, season) pair exists, leaving the
   * registry alone; otherwise exactly one team with those values is added
   * under the next id, and the pairs stay unique.
   */
  method CreateTeam(db: Store.Session, name: string, season: string) returns (r: Result<Team, HttpException>)
    requires db.Valid()
    modifies db
    ensures db.Valid()
    ensures r.Failure? <==> exists t :: t in old(db.teams) && t.name == name && t.season == season
    ensures r.Failure? ==> r.error == HttpException(HTTP_409_CONFLICT, Plain(ConflictDetail(name, season)))
    ensures r.Failure? ==> db.teams == old(db.teams) && db.nextTeamId == old(db.nextTeamId)
    ensures r.Success? ==> r.value == Team(old(db.nextTeamId), name, season)
    ensures r.Success? ==> db.teams == old(db.teams) + [r.value] && db.nextTeamId == old(db.nextTeamId) + 1
    ensures UniqueNameSeason(old(db.teams)) ==> UniqueNameSeason(db.teams)
    ensures db.players == old(db.players) && db.templates == old(db.templates) && db.slots == old(db.slots)
    ensures db.nextPlayerId == old(db.nextPlayerId) && db.nextTemplateId == old(db.nextTemplateId)
    ensures db.nextSlotId == old(db.nextSlotId)
  {
    var existing := FindTeam(db.teams, name, season);
    if existing.Some? {
      return Failure(HttpException(HTTP_409_CONFLICT, Plain(ConflictDetail(name, season))));
    }
    ghost var before := db.teams;
    var team := db.AddTeam(name, season);
    if UniqueNameSeason(before) {
      AddKeepsUnique(before, team);
    }
    return Success(team);
  }

  /** `get_team`: the team with that id, or 404. */
  method GetTeam(db: Store.Session, teamId: int) returns (r: Result<Team, HttpException>)
    ensures r.Failure? <==> forall i :: 0 <= i < |db.teams| ==> db.teams[i].id != teamId
    ensures r.Failure? ==> r.error == HttpException(HTTP_404_NOT_FOUND, Plain("Team with ID " + IntToString(teamId) + " not found"))
    ensures r.Success? ==> r.value in db.teams && r.value.id == teamId
  {
    var team := Store.GetTeam(db.teams, teamId);
    if team.None? {
      return Failure(HttpException(HTTP_404_NOT_FOUND, Plain("Team with ID " + IntToString(teamId) + " not found")));
    }
    return Success(team.value);
  }
}
