/**
 * The in-memory stand-in for the database session: one table per model, each
 * a sequence of rows in insertion order, and the next id each table's
 * autoincrement hands out. Rows are values; a row's identity is its id.
 */
module Store {
  import opened Wrappers
  import opened Seqs
  import opened Models

  predicate UniqueTeamIds(teams: seq<Team>) {
    forall i, j :: 0 <= i < j < |teams| ==> teams[i].id != teams[j].id
  }

  predicate UniquePlayerIds(players: seq<Player>) {
    forall i, j :: 0 <= i < j < |players| ==> players[i].id != players[j].id
  }

  predicate UniqueTemplateIds(templates: seq<LineupTemplate>) {
    forall i, j :: 0 <= i < j < |templates| ==> templates[i].id != templates[j].id
  }

  predicate UniqueSlotIds(slots: seq<LineupSlot>) {
    forall i, j :: 0 <= i < j < |slots| ==> slots[i].id != slots[j].id
  }

  /** `session.get(Team, id)`. */
  function GetTeam(teams: seq<Team>, id: int): (r: Option<Team>)
    ensures r.Some? ==> r.value in teams && r.value.id == id
    ensures r.None? <==> forall i :: 0 <= i < |teams| ==> teams[i].id != id
  {
    match First(teams, (t: Team) => t.id == id)
    case Some(i) => Some(teams[i])
    case None => None
  }

  /** `session.get(Player, id)`. */
  function GetPlayer(players: seq<Player>, id: int): (r: Option<Player>)
    ensures r.Some? ==> r.value in players && r.value.id == id
    ensures r.None? <==> forall i :: 0 <= i < |players| ==> players[i].id != id
  {
    match First(players, (p: Player) => p.id == id)
    case Some(i) => Some(players[i])
    case None => None
  }

  /** `session.get(LineupTemplate, id)`. */
  function GetTemplate(templates: seq<LineupTemplate>, id: int): (r: Option<LineupTemplate>)
    ensures r.Some? ==> r.value in templates && r.value.id == id
    ensures r.None? <==> forall i :: 0 <= i < |templates| ==> templates[i].id != id
  {
    match First(templates, (t: LineupTemplate) => t.id == id)
    case Some(i) => Some(templates[i])
    case None => None
  }

  /** Where `session.get(LineupTemplate, id)` finds its row. */
  function TemplateIndex(templates: seq<LineupTemplate>, id: int): (r: Option<nat>)
    ensures r.Some? ==> r.value < |templates| && templates[r.value].id == id
    ensures r.Some? ==> GetTemplate(templates, id) == Some(templates[r.value])
    ensures r.None? <==> GetTemplate(templates, id).None?
  {
    First(templates, (t: LineupTemplate) => t.id == id)
  }

  /** Where `session.get(LineupSlot, id)` finds its row. */
  function SlotIndex(slots: seq<LineupSlot>, id: int): (r: Option<nat>)
    ensures r.Some? ==> r.value < |slots| && slots[r.value].id == id
    ensures r.Some? ==> forall j :: 0 <= j < r.value ==> slots[j].id != id
    ensures r.None? <==> forall i :: 0 <= i < |slots| ==> slots[i].id != id
  {
    First(slots, (s: LineupSlot) => s.id == id)
  }

  class Session {
    var teams: seq<Team>
    var players: seq<Player>
    var templates: seq<LineupTemplate>
    var slots: seq<LineupSlot>
    var nextTeamId: int
    var nextPlayerId: int
    var nextTemplateId: int
    var nextSlotId: int

    /** Primary keys are unique and below the next id the table will hand out. */
    ghost predicate Valid()
      reads this
    {
      && UniqueTeamIds(teams) && UniquePlayerIds(players)
      && UniqueTemplateIds(templates) && UniqueSlotIds(slots)
      && (forall i :: 0 <= i < |teams| ==> teams[i].id < nextTeamId)
      && (forall i :: 0 <= i < |players| ==> players[i].id < nextPlayerId)
      && (forall i :: 0 <= i < |templates| ==> templates[i].id < nextTemplateId)
      && (forall i :: 0 <= i < |slots| ==> slots[i].id < nextSlotId)
    }

    constructor ()
      ensures Valid()
      ensures teams == [] && players == [] && templates == [] && slots == []
      ensures nextTeamId == 1 && nextPlayerId == 1 && nextTemplateId == 1 && nextSlotId == 1
    {
      teams, players, templates, slots := [], [], [], [];
      nextTeamId, nextPlayerId, nextTemplateId, nextSlotId := 1, 1, 1, 1;
    }

    /** `session.add(Team(...))` followed by a flush: the row gets the next id. */
    method AddTeam(name: string, season: string) returns (team: Team)
      requires Valid()
      modifies this
      ensures Valid()
      ensures team == Team(old(nextTeamId), name, season)
      ensures teams == old(teams) + [team] && nextTeamId == old(nextTeamId) + 1
      ensures players == old(players) && templates == old(templates) && slots == old(slots)
      ensures nextPlayerId == old(nextPlayerId) && nextTemplateId == old(nextTemplateId)
      ensures nextSlotId == old(nextSlotId)
    {
      team := Team(nextTeamId, name, season);
      teams := teams + [team];
      nextTeamId := nextTeamId + 1;
    }

    /** `session.add(player)` followed by a flush: the row gets the next id. */
    method AddPlayer(player: Player) returns (added: Player)
      requires Valid()
      modifies this
      ensures Valid()
      ensures added == player.(id := old(nextPlayerId))
      ensures players == old(players) + [added] && nextPlayerId == old(nextPlayerId) + 1
      ensures teams == old(teams) && templates == old(templates) && slots == old(slots)
      ensures nextTeamId == old(nextTeamId) && nextTemplateId == old(nextTemplateId)
      ensures nextSlotId == old(nextSlotId)
    {
      added := player.(id := nextPlayerId);
      players := players + [added];
      nextPlayerId := nextPlayerId + 1;
    }

    /** `session.add(LineupTemplate(...))` followed by a flush. */
    method AddTemplate(teamId: int, name: string, notes: Option<string>) returns (template: LineupTemplate)
      requires Valid()
      modifies this
      ensures Valid()
      ensures template == LineupTemplate(old(nextTemplateId), teamId, name, notes)
      ensures templates == old(templates) + [template] && nextTemplateId == old(nextTemplateId) + 1
      ensures teams == old(teams) && players == old(players) && slots == old(slots)
      ensures nextTeamId == old(nextTeamId) && nextPlayerId == old(nextPlayerId)
      ensures nextSlotId == old(nextSlotId)
    {
      template := LineupTemplate(nextTemplateId, teamId, name, notes);
      templates := templates + [template];
      nextTemplateId := nextTemplateId + 1;
    }

    /** `session.add(slot)` for a new, empty slot. */
    method AddSlot(slot: LineupSlot) returns (added: LineupSlot)
      requires Valid()
      modifies this
      ensures Valid()
      ensures added == slot.(id := old(nextSlotId))
      ensures slots == old(slots) + [added] && nextSlotId == old(nextSlotId) + 1
      ensures teams == old(teams) && players == old(players) && templates == old(templates)
      ensures nextTeamId == old(nextTeamId) && nextPlayerId == old(nextPlayerId)
      ensures nextTemplateId == old(nextTemplateId)
    {
      added := slot.(id := nextSlotId);
      slots := slots + [added];
      nextSlotId := nextSlotId + 1;
    }

    /** Sets `date_saved` on the template at row `i`; no other column or row changes. */
    method SetDateSaved(i: nat, when: Timestamp)
      requires Valid() && i < |templates|
      modifies this
      ensures Valid()
      ensures templates == old(templates)[i := old(templates)[i].(dateSaved := Some(when))]
      ensures teams == old(teams) && players == old(players) && slots == old(slots)
      ensures nextTeamId == old(nextTeamId) && nextPlayerId == old(nextPlayerId)
      ensures nextTemplateId == old(nextTemplateId) && nextSlotId == old(nextSlotId)
    {
      templates := templates[i := templates[i].(dateSaved := Some(when))];
    }

    /** Sets `player_id` on the slot at row `i`; no other column or row changes. */
    method SetSlotPlayer(i: nat, playerId: Option<int>)
      requires Valid() && i < |slots|
      modifies this
      ensures Valid()
      ensures slots == old(slots)[i := old(slots)[i].(playerId := playerId)]
      ensures teams == old(teams) && players == old(players) && templates == old(templates)
      ensures nextTeamId == old(nextTeamId) && nextPlayerId == old(nextPlayerId)
      ensures nextTemplateId == old(nextTemplateId) && nextSlotId == old(nextSlotId)
    {
      slots := slots[i := slots[i].(playerId := playerId)];
    }
  }
}
