/**
 * The lineup engine: seeding a template's fixed slots, assigning a player to
 * a slot (or clearing it) with soft warnings, best-effort bulk assignment,
 * the template's slots in display order, and the players still available.
 */
module LineupService {
  import opened Wrappers
  import opened Seqs
  import opened Strings
  import opened Models
  import opened Errors
  import opened Store

  const ForwardLines := 4
  const DefensePairs := 3
  const GoalieSlots := 2
  const ForwardPositions: seq<string> := ["LW", "C", "RW"]
  const DefensePositions: seq<string> := ["L", "R"]
  const GoalieLabels: seq<string> := ["Starter", "Backup"]

  /** Slots per template: 4 lines of 3 forwards, 3 pairs of 2 defenders, 2 goalies. */
  const SlotCount := ForwardLines * |ForwardPositions| + DefensePairs * |DefensePositions| + |GoalieLabels|

  // ---------------------------------------------------------------------------
  // Seeding

  /** The forward slot at position `idx` of line `line`. Its id is assigned on insert. */
  function ForwardSlot(templateId: int, line: int, idx: nat): LineupSlot
    requires idx < |ForwardPositions|
  {
    LineupSlot(0, templateId, FWD, "FWD" + IntToString(line) + " " + ForwardPositions[idx], line * 10 + idx)
  }

  /** The defense slot at side `idx` of pair `pair`. */
  function DefenseSlot(templateId: int, pair: int, idx: nat): LineupSlot
    requires idx < |DefensePositions|
  {
    LineupSlot(0, templateId, DEF, "DEF" + IntToString(pair) + " " + DefensePositions[idx], 100 + pair * 10 + idx)
  }

  /** The goalie slot `idx` (starter, then backup). */
  function GoalieSlot(templateId: int, idx: nat): LineupSlot
    requires idx < |GoalieLabels|
  {
    LineupSlot(0, templateId, SlotType.G, "G " + GoalieLabels[idx], 200 + idx)
  }

  /** The `k`-th slot a template is seeded with, in seeding order. */
  function StandardSlot(templateId: int, k: nat): LineupSlot
    requires k < SlotCount
  {
    if k < 12 then ForwardSlot(templateId, k / 3 + 1, k % 3)
    else if k < 18 then DefenseSlot(templateId, (k - 12) / 2 + 1, (k - 12) % 2)
    else GoalieSlot(templateId, k - 18)
  }

  /** The full seed of a template: 20 empty slots, all carrying its id. */
  function StandardSlots(templateId: int): (r: seq<LineupSlot>)
    ensures |r| == SlotCount == 20
    ensures forall k :: 0 <= k < |r| ==> r[k].templateId == templateId && r[k].playerId.None?
    ensures forall k :: 0 <= k < 12 ==> r[k].slotType == FWD
    ensures forall k :: 12 <= k < 18 ==> r[k].slotType == DEF
    ensures forall k :: 18 <= k < 20 ==> r[k].slotType == SlotType.G
  {
    seq(SlotCount, k requires 0 <= k < SlotCount => StandardSlot(templateId, k))
  }

  /** Seeding order is display order: order indices strictly increase, so they are distinct and FWD < DEF < G. */
  lemma StandardSlotsOrdered(templateId: int)
    ensures var r := StandardSlots(templateId);
      forall i, j :: 0 <= i < j < |r| ==> r[i].orderIndex < r[j].orderIndex
  {
    var r := StandardSlots(templateId);
    forall i | 0 <= i < |r| - 1 ensures r[i].orderIndex < r[i + 1].orderIndex {
      OrderIndexStep(templateId, i);
    }
    IncreasingSteps(r);
  }

  lemma OrderIndexStep(templateId: int, i: nat)
    requires i < SlotCount - 1
    ensures StandardSlot(templateId, i).orderIndex < StandardSlot(templateId, i + 1).orderIndex
  {
    if i < 12 {
      assert i / 3 == (i + 1) / 3 || (i % 3 == 2 && (i + 1) / 3 == i / 3 + 1);
    } else if i < 18 {
      assert (i - 12) / 2 == (i - 11) / 2 || ((i - 12) % 2 == 1 && (i - 11) / 2 == (i - 12) / 2 + 1);
    }
  }

  /** Strictly increasing neighbours make a strictly increasing sequence. */
  lemma {:induction false} IncreasingSteps(r: seq<LineupSlot>)
    requires forall i :: 0 <= i < |r| - 1 ==> r[i].orderIndex < r[i + 1].orderIndex
    ensures forall i, j :: 0 <= i < j < |r| ==> r[i].orderIndex < r[j].orderIndex
  {
    if |r| > 1 {
      var tail := r[1..];
      assert forall i :: 0 <= i < |tail| ==> tail[i] == r[i + 1];
      IncreasingSteps(tail);
      forall i, j | 0 <= i < j < |r| ensures r[i].orderIndex < r[j].orderIndex {
        if i > 0 {
          assert r[i] == tail[i - 1] && r[j] == tail[j - 1];
        } else if j > 1 {
          assert r[1] == tail[0] && r[j] == tail[j - 1];
        }
      }
    }
  }

  function Labels(slots: seq<LineupSlot>): seq<string> {
    seq(|slots|, i requires 0 <= i < |slots| => slots[i].slotLabel)
  }

  const StandardLabels: seq<string> := [
    "FWD1 LW", "FWD1 C", "FWD1 RW", "FWD2 LW", "FWD2 C", "FWD2 RW",
    "FWD3 LW", "FWD3 C", "FWD3 RW", "FWD4 LW", "FWD4 C", "FWD4 RW",
    "DEF1 L", "DEF1 R", "DEF2 L", "DEF2 R", "DEF3 L", "DEF3 R",
    "G Starter", "G Backup"]

  /** The exact labels, in seeding order. */
  lemma StandardSlotLabels(templateId: int)
    ensures Labels(StandardSlots(templateId)) == StandardLabels
  {
    var r := StandardSlots(templateId);
    forall k | 0 <= k < 20 ensures r[k].slotLabel == StandardLabels[k] {
      StandardSlotLabelAt(templateId, k);
    }
  }

  lemma StandardSlotLabelAt(templateId: int, k: nat)
    requires k < 20
    ensures StandardSlots(templateId)[k].slotLabel == StandardLabels[k]
  {
    assert StandardSlots(templateId)[k] == StandardSlot(templateId, k);
    if k < 12 {
      var line, idx := k / 3 + 1, k % 3;
      assert (line - 1) * 3 + idx == k;
      ForwardLabels(templateId);
      assert ForwardSlot(templateId, line, idx).slotLabel == StandardLabels[(line - 1) * 3 + idx];
    } else if k < 18 {
      var pair, idx := (k - 12) / 2 + 1, (k - 12) % 2;
      assert 12 + (pair - 1) * 2 + idx == k;
      DefenseLabels(templateId);
      assert DefenseSlot(templateId, pair, idx).slotLabel == StandardLabels[12 + (pair - 1) * 2 + idx];
    }
  }

  lemma ForwardLabels(templateId: int)
    ensures forall line, idx :: 1 <= line <= 4 && 0 <= idx < 3 ==>
      ForwardSlot(templateId, line, idx).slotLabel == StandardLabels[(line - 1) * 3 + idx]
  {
    SmallIntToString();
    assert ForwardSlot(templateId, 1, 0).slotLabel == "FWD1 LW";
    assert ForwardSlot(templateId, 1, 1).slotLabel == "FWD1 C";
    assert ForwardSlot(templateId, 1, 2).slotLabel == "FWD1 RW";
    assert ForwardSlot(templateId, 2, 0).slotLabel == "FWD2 LW";
    assert ForwardSlot(templateId, 2, 1).slotLabel == "FWD2 C";
    assert ForwardSlot(templateId, 2, 2).slotLabel == "FWD2 RW";
    assert ForwardSlot(templateId, 3, 0).slotLabel == "FWD3 LW";
    assert ForwardSlot(templateId, 3, 1).slotLabel == "FWD3 C";
    assert ForwardSlot(templateId, 3, 2).slotLabel == "FWD3 RW";
    assert ForwardSlot(templateId, 4, 0).slotLabel == "FWD4 LW";
    assert ForwardSlot(templateId, 4, 1).slotLabel == "FWD4 C";
    assert ForwardSlot(templateId, 4, 2).slotLabel == "FWD4 RW";
  }

  lemma DefenseLabels(templateId: int)
    ensures forall pair, idx :: 1 <= pair <= 3 && 0 <= idx < 2 ==>
      DefenseSlot(templateId, pair, idx).slotLabel == StandardLabels[12 + (pair - 1) * 2 + idx]
  {
    SmallIntToString();
    assert DefenseSlot(templateId, 1, 0).slotLabel == "DEF1 L";
    assert DefenseSlot(templateId, 1, 1).slotLabel == "DEF1 R";
    assert DefenseSlot(templateId, 2, 0).slotLabel == "DEF2 L";
    assert DefenseSlot(templateId, 2, 1).slotLabel == "DEF2 R";
    assert DefenseSlot(templateId, 3, 0).slotLabel == "DEF3 L";
    assert DefenseSlot(templateId, 3, 1).slotLabel == "DEF3 R";
  }

  lemma SmallIntToString()
    ensures IntToString(1) == "1" && IntToString(2) == "2" && IntToString(3) == "3" && IntToString(4) == "4"
  {
  }

  /** The nested loops of `_seed_lineup_slots`, building the slots in order. */
  method StandardSlotRows(templateId: int) returns (rows: seq<LineupSlot>)
    ensures rows == StandardSlots(templateId)
  {
    ghost var all := StandardSlots(templateId);
    rows := [];
    for lineNum := 1 to ForwardLines + 1
      invariant rows == all[..(lineNum - 1) * 3]
    {
      var positions := ForwardPositions;
      for posIdx := 0 to |positions|
        invariant rows == all[..(lineNum - 1) * 3 + posIdx]
      {
        ForwardSlotAt(templateId, lineNum, posIdx);
        PrefixStep(all, (lineNum - 1) * 3 + posIdx);
        rows := rows + [LineupSlot(0, templateId, FWD, "FWD" + IntToString(lineNum) + " " + positions[posIdx],
                                   lineNum * 10 + posIdx)];
      }
    }
    for pairNum := 1 to DefensePairs + 1
      invariant rows == all[..12 + (pairNum - 1) * 2]
    {
      var positions := DefensePositions;
      for posIdx := 0 to |positions|
        invariant rows == all[..12 + (pairNum - 1) * 2 + posIdx]
      {
        DefenseSlotAt(templateId, pairNum, posIdx);
        PrefixStep(all, 12 + (pairNum - 1) * 2 + posIdx);
        rows := rows + [LineupSlot(0, templateId, DEF, "DEF" + IntToString(pairNum) + " " + positions[posIdx],
                                   100 + pairNum * 10 + posIdx)];
      }
    }
    var goalieLabels := GoalieLabels;
    for goalieIdx := 0 to |goalieLabels|
      invariant rows == all[..18 + goalieIdx]
    {
      assert all[18 + goalieIdx] == GoalieSlot(templateId, goalieIdx);
      PrefixStep(all, 18 + goalieIdx);
      rows := rows + [LineupSlot(0, templateId, SlotType.G, "G " + goalieLabels[goalieIdx], 200 + goalieIdx)];
    }
    assert all[..20] == all;
  }

  lemma PrefixStep<T>(s: seq<T>, k: nat)
    requires k < |s|
    ensures s[..k + 1] == s[..k] + [s[k]]
  {
  }

  lemma ForwardSlotAt(templateId: int, line: int, idx: nat)
    requires 1 <= line <= ForwardLines && idx < |ForwardPositions|
    ensures StandardSlots(templateId)[(line - 1) * 3 + idx] == ForwardSlot(templateId, line, idx)
  {
    var k := (line - 1) * 3 + idx;
    assert k / 3 + 1 == line && k % 3 == idx;
  }

  lemma DefenseSlotAt(templateId: int, pair: int, idx: nat)
    requires 1 <= pair <= DefensePairs && idx < |DefensePositions|
    ensures StandardSlots(templateId)[12 + (pair - 1) * 2 + idx] == DefenseSlot(templateId, pair, idx)
  {
    var k := 12 + (pair - 1) * 2 + idx;
    assert (k - 12) / 2 + 1 == pair && (k - 12) % 2 == idx;
  }

  /** Rows as the table stores them once inserted with consecutive ids from `firstId`. */
  function Inserted(rows: seq<LineupSlot>, firstId: int): (r: seq<LineupSlot>)
    ensures |r| == |rows|
    ensures forall i :: 0 <= i < |r| ==> r[i] == rows[i].(id := firstId + i)
  {
    seq(|rows|, i requires 0 <= i < |rows| => rows[i].(id := firstId + i))
  }

  /** `_seed_lineup_slots`: appends the template's 20 slots to the slot table. */
  method SeedLineupSlots(db: Session, templateId: int)
    requires db.Valid()
    modifies db
    ensures db.Valid()
    ensures db.slots == old(db.slots) + Inserted(StandardSlots(templateId), old(db.nextSlotId))
    ensures db.nextSlotId == old(db.nextSlotId) + SlotCount
    ensures db.teams == old(db.teams) && db.players == old(db.players) && db.templates == old(db.templates)
    ensures db.nextTeamId == old(db.nextTeamId) && db.nextPlayerId == old(db.nextPlayerId)
    ensures db.nextTemplateId == old(db.nextTemplateId)
  {
    var slots := StandardSlotRows(templateId);
    for i := 0 to |slots|
      invariant db.Valid()
      invariant db.slots == old(db.slots) + Inserted(slots[..i], old(db.nextSlotId))
      invariant db.nextSlotId == old(db.nextSlotId) + i
      invariant db.teams == old(db.teams) && db.players == old(db.players) && db.templates == old(db.templates)
      invariant db.nextTeamId == old(db.nextTeamId) && db.nextPlayerId == old(db.nextPlayerId)
      invariant db.nextTemplateId == old(db.nextTemplateId)
    {
      var _ := db.AddSlot(slots[i]);
      assert Inserted(slots[..i + 1], old(db.nextSlotId))
          == Inserted(slots[..i], old(db.nextSlotId)) + [slots[i].(id := old(db.nextSlotId) + i)];
    }
    assert slots[..|slots|] == slots;
  }

  /** `create_lineup_template`: rejects an unknown team, else inserts the template and seeds its slots. */
  method CreateLineupTemplate(db: Session, teamId: int, name: string, notes: Option<string>)
    returns (r: Result<LineupTemplate, ServiceError>)
    requires db.Valid()
    modifies db
    ensures db.Valid()
    ensures r.Failure? <==> GetTeam(old(db.teams), teamId).None?
    ensures r.Failure? ==> r.error == NewServiceError("Team with ID " + IntToString(teamId) + " not found")
    ensures r.Failure? ==> db.templates == old(db.templates) && db.slots == old(db.slots)
    ensures r.Failure? ==> db.nextTemplateId == old(db.nextTemplateId) && db.nextSlotId == old(db.nextSlotId)
    ensures r.Success? ==> r.value == LineupTemplate(old(db.nextTemplateId), teamId, name, notes)
    ensures r.Success? ==> db.templates == old(db.templates) + [r.value]
    ensures r.Success? ==> db.slots == old(db.slots) + Inserted(StandardSlots(r.value.id), old(db.nextSlotId))
    ensures db.teams == old(db.teams) && db.players == old(db.players)
  {
    if GetTeam(db.teams, teamId).None? {
      return Failure(NewServiceError("Team with ID " + IntToString(teamId) + " not found"));
    }
    var template := db.AddTemplate(teamId, name, notes);
    SeedLineupSlots(db, template.id);
    return Success(template);
  }

  // ---------------------------------------------------------------------------
  // Assignment

  datatype WarningKind = DuplicateWarning | StatusWarning | PositionWarning | ErrorWarning

  /** The `type` string of a warning. */
  function KindValue(k: WarningKind): string {
    match k
    case DuplicateWarning => "duplicate"
    case StatusWarning => "status"
    case PositionWarning => "position"
    case ErrorWarning => "error"
  }

  datatype Warning = Warning(kind: WarningKind, message: string)

  function Kinds(ws: seq<Warning>): seq<WarningKind> {
    seq(|ws|, i requires 0 <= i < |ws| => ws[i].kind)
  }

  /** `_is_position_compatible`, on the enumerations' string values. */
  predicate IsPositionCompatible(playerPosition: string, slotType: string) {
    if playerPosition == "F" && slotType == "FWD" then true
    else if playerPosition == "D" && slotType == "DEF" then true
    else if playerPosition == "G" && slotType == "G" then true
    else false
  }

  /** The one slot type each position belongs in. */
  function HomeSlotType(p: Position): SlotType {
    match p
    case F => FWD
    case D => DEF
    case G => SlotType.G
  }

  /** Compatibility is exactly F with FWD, D with DEF and G with G; every other pair is incompatible. */
  lemma PositionCompatibility(p: Position, t: SlotType)
    ensures IsPositionCompatible(PositionValue(p), SlotTypeValue(t)) <==> t == HomeSlotType(p)
  {
  }

  predicate Holds(s: LineupSlot, templateId: int, playerId: int) {
    s.templateId == templateId && s.playerId == Some(playerId)
  }

  /** `_find_player_in_lineup`: a slot of the template holding the player, if there is one. */
  function FindPlayerInLineup(slots: seq<LineupSlot>, templateId: int, playerId: int): (r: Option<LineupSlot>)
    ensures r.Some? ==> r.value in slots && Holds(r.value, templateId, playerId)
    ensures r.None? <==> forall i :: 0 <= i < |slots| ==> !Holds(slots[i], templateId, playerId)
  {
    match First(slots, (s: LineupSlot) => Holds(s, templateId, playerId))
    case Some(i) => Some(slots[i])
    case None => None
  }

  /** The kind `k` when `cond` holds, else nothing. */
  function KindIf(cond: bool, k: WarningKind): seq<WarningKind> {
    if cond then [k] else []
  }

  /**
   * The soft warnings of an assignment: a duplicate warning when the player
   * already holds another slot of the lineup, a status warning when the
   * player is not Active, a position warning when the position does not fit
   * the slot, each exactly when its condition holds and in that order.
   */
  function AssignmentWarnings(player: Player, slot: LineupSlot, existing: Option<LineupSlot>): (ws: seq<Warning>)
    ensures Kinds(ws) == KindIf(existing.Some? && existing.value.id != slot.id, DuplicateWarning)
                       + KindIf(player.status != Active, StatusWarning)
                       + KindIf(!IsPositionCompatible(PositionValue(player.position), SlotTypeValue(slot.slotType)),
                                PositionWarning)
    ensures existing.Some? && existing.value.id != slot.id ==>
      |ws| > 0 && ws[0] == DuplicateWarningFor(player, existing.value)
    ensures player.status != Active ==> StatusWarningFor(player) in ws
    ensures !IsPositionCompatible(PositionValue(player.position), SlotTypeValue(slot.slotType)) ==>
      |ws| > 0 && ws[|ws| - 1] == PositionWarningFor(player, slot)
    ensures ErrorWarning !in Kinds(ws)
  {
    StatusValuesDistinct(player.status, Active);
    var duplicate := match existing
      case Some(other) => Optional(other.id != slot.id, DuplicateWarningFor(player, other))
      case None => [];
    var status := Optional(StatusValue(player.status) != "Active", StatusWarningFor(player));
    var position := Optional(!IsPositionCompatible(PositionValue(player.position), SlotTypeValue(slot.slotType)),
                             PositionWarningFor(player, slot));
    KindsAppend(duplicate, status);
    KindsAppend(duplicate + status, position);
    NoErrorKind(existing.Some? && existing.value.id != slot.id, player.status != Active,
                !IsPositionCompatible(PositionValue(player.position), SlotTypeValue(slot.slotType)));
    duplicate + status + position
  }

  lemma NoErrorKind(duplicate: bool, status: bool, position: bool)
    ensures ErrorWarning !in KindIf(duplicate, DuplicateWarning) + KindIf(status, StatusWarning)
                            + KindIf(position, PositionWarning)
  {
  }

  function DuplicateWarningFor(player: Player, other: LineupSlot): (w: Warning)
    ensures w.kind == DuplicateWarning
  {
    Warning(DuplicateWarning, "Player " + player.name + " is already assigned to " + other.slotLabel)
  }

  function StatusWarningFor(player: Player): (w: Warning)
    ensures w.kind == StatusWarning
  {
    Warning(StatusWarning, "Player " + player.name + " has status '" + StatusValue(player.status) + "' (not Active)")
  }

  function PositionWarningFor(player: Player, slot: LineupSlot): (w: Warning)
    ensures w.kind == PositionWarning
  {
    Warning(PositionWarning, "Player " + player.name + " is a " + PositionValue(player.position)
                             + " but slot is for " + SlotTypeValue(slot.slotType))
  }

  /** A warning list of zero or one entries. */
  function Optional(cond: bool, w: Warning): (r: seq<Warning>)
    ensures Kinds(r) == KindIf(cond, w.kind)
  {
    if cond then [w] else []
  }

  lemma KindsAppend(a: seq<Warning>, b: seq<Warning>)
    ensures Kinds(a + b) == Kinds(a) + Kinds(b)
  {
  }

  /** A successful assignment (`success` is always true). */
  datatype Assignment = Assignment(slotId: int, playerId: Option<int>, warnings: seq<Warning>)

  /** What an assignment returns or raises, and the slot table afterwards. */
  datatype AssignOutcome = AssignOutcome(result: Result<Assignment, ServiceError>, slots: seq<LineupSlot>)

  /** The hard errors of an assignment: missing slot, template or player, or a player of another team. */
  predicate AssignFails(players: seq<Player>, templates: seq<LineupTemplate>, slots: seq<LineupSlot>,
                        slotId: int, playerId: Option<int>)
  {
    match SlotIndex(slots, slotId)
    case None => true
    case Some(i) =>
      match GetTemplate(templates, slots[i].templateId)
      case None => true
      case Some(template) =>
        playerId.Some? &&
        match GetPlayer(players, playerId.value)
        case None => true
        case Some(player) => player.teamId != template.teamId
  }

  /** Only the fields other than `player_id` are compared: the table's structure. */
  predicate SameStructure(a: seq<LineupSlot>, b: seq<LineupSlot>) {
    |a| == |b| && forall i :: 0 <= i < |a| ==> a[i].(playerId := None) == b[i].(playerId := None)
  }

  /** Where a successful assignment writes (the slot's row) and what it returns. */
  datatype Target = Target(index: nat, assignment: Assignment)

  /**
   * The checks of `assign_player_to_slot`, in its order: the slot, its
   * template, then (unless clearing) the player and the team match. Every
   * hard error is a plain service error.
   */
  function CheckAssignment(players: seq<Player>, templates: seq<LineupTemplate>, slots: seq<LineupSlot>,
                           slotId: int, playerId: Option<int>): (r: Result<Target, ServiceError>)
    ensures r.Success? ==> SlotIndex(slots, slotId) == Some(r.value.index) && r.value.index < |slots|
    ensures r.Success? ==> r.value.assignment.slotId == slotId && r.value.assignment.playerId == playerId
    ensures r.Success? ==> ErrorWarning !in Kinds(r.value.assignment.warnings)
    ensures r.Success? && playerId.None? ==> r.value.assignment.warnings == []
    ensures r.Failure? ==> r.error.kind == Generic
  {
    match SlotIndex(slots, slotId)
    case None => Failure(NewServiceError("Slot with ID " + IntToString(slotId) + " not found"))
    case Some(i) =>
      var slot := slots[i];
      match GetTemplate(templates, slot.templateId)
      case None => Failure(NewServiceError("Template with ID " + IntToString(slot.templateId) + " not found"))
      case Some(template) =>
        if playerId.None? then Success(Target(i, Assignment(slotId, None, [])))
        else
          match GetPlayer(players, playerId.value)
          case None => Failure(NewServiceError("Player with ID " + IntToString(playerId.value) + " not found"))
          case Some(player) =>
            if player.teamId != template.teamId then
              Failure(NewServiceError("Player must be on the same team as the lineup template"))
            else
              var ws := AssignmentWarnings(player, slot, FindPlayerInLineup(slots, template.id, playerId.value));
              Success(Target(i, Assignment(slotId, playerId, ws)))
  }

  /**
   * `assign_player_to_slot` on the tables. A hard error changes nothing; a
   * success sets the target slot's player and leaves every other slot, and
   * every other column, as it was.
   */
  function Assign(players: seq<Player>, templates: seq<LineupTemplate>, slots: seq<LineupSlot>,
                  slotId: int, playerId: Option<int>): (o: AssignOutcome)
    ensures SameStructure(o.slots, slots)
    ensures o.result.Failure? ==> o.slots == slots && o.result.error.kind == Generic
    ensures o.result.Success? ==> SlotIndex(slots, slotId).Some?
    ensures o.result.Success? ==>
      var i := SlotIndex(slots, slotId).value;
      && o.slots == slots[i := slots[i].(playerId := playerId)]
      && o.result.value.slotId == slotId && o.result.value.playerId == playerId
      && ErrorWarning !in Kinds(o.result.value.warnings)
    ensures o.result.Success? && playerId.None? ==> o.result.value.warnings == []
  {
    match CheckAssignment(players, templates, slots, slotId, playerId)
    case Failure(e) => AssignOutcome(Failure(e), slots)
    case Success(t) => AssignOutcome(Success(t.assignment), slots[t.index := slots[t.index].(playerId := playerId)])
  }

  /** An assignment fails exactly on the four hard errors. */
  lemma AssignFailsExactly(players: seq<Player>, templates: seq<LineupTemplate>, slots: seq<LineupSlot>,
                           slotId: int, playerId: Option<int>)
    ensures Assign(players, templates, slots, slotId, playerId).result.Failure?
        <==> AssignFails(players, templates, slots, slotId, playerId)
  {
  }

  /** A successful assignment of a player carries exactly the three warnings' conditions, evaluated before the update. */
  lemma AssignWarningsOnSuccess(players: seq<Player>, templates: seq<LineupTemplate>, slots: seq<LineupSlot>,
                                slotId: int, playerId: int)
    requires Assign(players, templates, slots, slotId, Some(playerId)).result.Success?
    ensures var i := SlotIndex(slots, slotId).value;
      var template := GetTemplate(templates, slots[i].templateId).value;
      var player := GetPlayer(players, playerId).value;
      && player.teamId == template.teamId
      && Assign(players, templates, slots, slotId, Some(playerId)).result.value.warnings
         == AssignmentWarnings(player, slots[i], FindPlayerInLineup(slots, template.id, playerId))
  {
  }

  /** A cross-team assignment is a plain service error, so it reaches the client as 400, not 409. */
  lemma CrossTeamIsBadRequest(players: seq<Player>, templates: seq<LineupTemplate>, slots: seq<LineupSlot>,
                              slotId: int, playerId: int)
    requires SlotIndex(slots, slotId).Some?
    requires GetTemplate(templates, slots[SlotIndex(slots, slotId).value].templateId).Some?
    requires GetPlayer(players, playerId).Some?
    requires GetPlayer(players, playerId).value.teamId
          != GetTemplate(templates, slots[SlotIndex(slots, slotId).value].templateId).value.teamId
    ensures var o := Assign(players, templates, slots, slotId, Some(playerId));
      o.result.Failure? && o.slots == slots && ToHttpException(o.result.error).statusCode == 400
  {
  }

  /**
   * The duplicate check looks only at the first slot holding the player: when
   * that is the target slot itself, a second slot holding the same player
   * goes unreported.
   */
  lemma DuplicateMissedWhenTargetComesFirst()
    ensures var players := [Player(7, 1, "Ann", F)];
      var templates := [LineupTemplate(3, 1, "Game", None)];
      var slots := [LineupSlot(10, 3, FWD, "FWD1 LW", 10, Some(7)), LineupSlot(11, 3, FWD, "FWD1 C", 11, Some(7))];
      var o := Assign(players, templates, slots, 10, Some(7));
      o.result.Success? && o.result.value.warnings == []
  {
    var players := [Player(7, 1, "Ann", F)];
    var templates := [LineupTemplate(3, 1, "Game", None)];
    var slots := [LineupSlot(10, 3, FWD, "FWD1 LW", 10, Some(7)), LineupSlot(11, 3, FWD, "FWD1 C", 11, Some(7))];
    assert SlotIndex(slots, 10) == Some(0);
    assert GetTemplate(templates, 3) == Some(templates[0]);
    assert GetPlayer(players, 7) == Some(players[0]);
    assert FindPlayerInLineup(slots, 3, 7) == Some(slots[0]);
    assert IsPositionCompatible("F", "FWD");
    assert Kinds(AssignmentWarnings(players[0], slots[0], Some(slots[0]))) == [];
  }

  /** `assign_player_to_slot`: updates the slot in place and returns the warnings. */
  method AssignPlayerToSlot(db: Session, slotId: int, playerId: Option<int>)
    returns (r: Result<Assignment, ServiceError>)
    requires db.Valid()
    modifies db
    ensures db.Valid()
    ensures var o := Assign(old(db.players), old(db.templates), old(db.slots), slotId, playerId);
      r == o.result && db.slots == o.slots
    ensures db.teams == old(db.teams) && db.players == old(db.players) && db.templates == old(db.templates)
    ensures db.nextTeamId == old(db.nextTeamId) && db.nextPlayerId == old(db.nextPlayerId)
    ensures db.nextTemplateId == old(db.nextTemplateId) && db.nextSlotId == old(db.nextSlotId)
  {
    var index := SlotIndex(db.slots, slotId);
    if index.None? {
      return Failure(NewServiceError("Slot with ID " + IntToString(slotId) + " not found"));
    }
    var i := index.value;
    var slot := db.slots[i];
    var template := GetTemplate(db.templates, slot.templateId);
    if template.None? {
      return Failure(NewServiceError("Template with ID " + IntToString(slot.templateId) + " not found"));
    }
    var warnings := [];
    if playerId.Some? {
      var player := GetPlayer(db.players, playerId.value);
      if player.None? {
        return Failure(NewServiceError("Player with ID " + IntToString(playerId.value) + " not found"));
      }
      var p := player.value;
      if p.teamId != template.value.teamId {
        return Failure(NewServiceError("Player must be on the same team as the lineup template"));
      }
      warnings := AssignmentWarnings(p, slot, FindPlayerInLineup(db.slots, template.value.id, playerId.value));
    }
    db.SetSlotPlayer(i, playerId);
    return Success(Assignment(slotId, playerId, warnings));
  }

  // ---------------------------------------------------------------------------
  // Bulk assignment

  /** One entry of a bulk request; either key may be absent. */
  datatype SlotAssignment = SlotAssignment(slotId: Option<int>, playerId: Option<int>)

  predicate Targets(a: SlotAssignment) {
    a.slotId.Some?
  }

  /** What a bulk request returns (`success` is always true), and the slot table afterwards. */
  datatype BulkOutcome = BulkOutcome(updatedSlots: seq<int>, warnings: seq<Warning>, slots: seq<LineupSlot>)

  /** The number of error warnings, one per failed entry. */
  function ErrorCount(ws: seq<Warning>): nat {
    multiset(Kinds(ws))[ErrorWarning]
  }

  /** The error warning a failed entry leaves. */
  function FailureWarning(slotId: int, e: ServiceError): Warning {
    Warning(ErrorWarning, "Failed to update slot " + IntToString(slotId) + ": " + e.message)
  }

  /**
   * One pass of the loop of `bulk_update_slots`: an entry without a slot id
   * is skipped; any other entry is one `assign_player_to_slot`, whose failure
   * becomes an error warning instead of stopping the loop.
   */
  function BulkStep(players: seq<Player>, templates: seq<LineupTemplate>, slots: seq<LineupSlot>,
                    a: SlotAssignment): (o: BulkOutcome)
    ensures SameStructure(o.slots, slots)
    ensures a.slotId.None? ==> o == BulkOutcome([], [], slots)
    ensures |o.updatedSlots| + ErrorCount(o.warnings) == if a.slotId.Some? then 1 else 0
    ensures forall id :: id in o.updatedSlots ==> a.slotId == Some(id) && SlotIndex(slots, id).Some?
  {
    if a.slotId.None? then BulkOutcome([], [], slots)
    else
      var step := Assign(players, templates, slots, a.slotId.value, a.playerId);
      match step.result
      case Success(res) =>
        assert ErrorWarning !in multiset(Kinds(res.warnings));
        BulkOutcome([a.slotId.value], res.warnings, step.slots)
      case Failure(e) =>
        assert Kinds([FailureWarning(a.slotId.value, e)]) == [ErrorWarning];
        BulkOutcome([], [FailureWarning(a.slotId.value, e)], step.slots)
  }

  /** A per-entry step of the bulk loop, on the table as the entries before it left it. */
  type Step = (seq<LineupSlot>, SlotAssignment) -> BulkOutcome

  /** The step's outcome for a targeted entry, read off the assignment it runs. */
  lemma BulkStepOfAssign(players: seq<Player>, templates: seq<LineupTemplate>, slots: seq<LineupSlot>,
                         a: SlotAssignment, o: AssignOutcome)
    requires a.slotId.Some? && o == Assign(players, templates, slots, a.slotId.value, a.playerId)
    ensures BulkStep(players, templates, slots, a) == match o.result
      case Success(res) => BulkOutcome([a.slotId.value], res.warnings, o.slots)
      case Failure(e) => BulkOutcome([], [FailureWarning(a.slotId.value, e)], o.slots)
  {
  }

  /** The loop of `bulk_update_slots`, for any per-entry step: results are concatenated in entry order. */
  function Fold(step: Step, slots: seq<LineupSlot>, assignments: seq<SlotAssignment>): (o: BulkOutcome)
    decreases |assignments|
  {
    if assignments == [] then BulkOutcome([], [], slots)
    else
      var head := step(slots, assignments[0]);
      var rest := Fold(step, head.slots, assignments[1..]);
      BulkOutcome(head.updatedSlots + rest.updatedSlots, head.warnings + rest.warnings, rest.slots)
  }

  /** A request split in two is the first half, then the second half on the table the first half left. */
  lemma {:induction false} FoldAppend(step: Step, slots: seq<LineupSlot>,
                                      first: seq<SlotAssignment>, second: seq<SlotAssignment>)
    ensures var o1 := Fold(step, slots, first);
      var o2 := Fold(step, o1.slots, second);
      Fold(step, slots, first + second)
        == BulkOutcome(o1.updatedSlots + o2.updatedSlots, o1.warnings + o2.warnings, o2.slots)
    decreases |first|
  {
    if first == [] {
      assert first + second == second;
    } else {
      assert (first + second)[0] == first[0];
      assert (first + second)[1..] == first[1..] + second;
      FoldAppend(step, step(slots, first[0]).slots, first[1..], second);
    }
  }

  /** A step that keeps the table's structure keeps it over the whole loop. */
  lemma {:induction false} FoldStructure(step: Step, slots: seq<LineupSlot>, assignments: seq<SlotAssignment>)
    requires forall t, a :: SameStructure(step(t, a).slots, t)
    ensures SameStructure(Fold(step, slots, assignments).slots, slots)
    decreases |assignments|
  {
    if assignments != [] {
      FoldStructure(step, step(slots, assignments[0]).slots, assignments[1..]);
    }
  }

  /** A step that accounts for each targeted entry once accounts for all of them over the loop. */
  lemma {:induction false} FoldCounts(step: Step, slots: seq<LineupSlot>, assignments: seq<SlotAssignment>)
    requires forall t, a :: |step(t, a).updatedSlots| + ErrorCount(step(t, a).warnings) == if Targets(a) then 1 else 0
    ensures var o := Fold(step, slots, assignments);
      |o.updatedSlots| + ErrorCount(o.warnings) == |Filter(assignments, Targets)|
    decreases |assignments|
  {
    if assignments != [] {
      var head := step(slots, assignments[0]);
      var rest := Fold(step, head.slots, assignments[1..]);
      FoldCounts(step, head.slots, assignments[1..]);
      assert assignments == [assignments[0]] + assignments[1..];
      FilterAppend([assignments[0]], assignments[1..], Targets);
      KindsAppend(head.warnings, rest.warnings);
    }
  }

  /** Tables of the same structure have the same slot ids. */
  lemma SameStructureSlotIds(a: seq<LineupSlot>, b: seq<LineupSlot>, id: int)
    requires SameStructure(a, b)
    ensures SlotIndex(a, id).Some? <==> SlotIndex(b, id).Some?
  {
    if SlotIndex(a, id).Some? {
      var i := SlotIndex(a, id).value;
      assert a[i].(playerId := None).id == b[i].(playerId := None).id;
    }
    if SlotIndex(b, id).Some? {
      var i := SlotIndex(b, id).value;
      assert a[i].(playerId := None).id == b[i].(playerId := None).id;
    }
  }

  /** A step that only updates existing slots, and keeps the structure, does so over the loop. */
  lemma {:induction false} FoldUpdatesExisting(step: Step, slots: seq<LineupSlot>, assignments: seq<SlotAssignment>)
    requires forall t, a :: SameStructure(step(t, a).slots, t)
    requires forall t, a, id :: id in step(t, a).updatedSlots ==> SlotIndex(t, id).Some?
    ensures forall id :: id in Fold(step, slots, assignments).updatedSlots ==> SlotIndex(slots, id).Some?
    decreases |assignments|
  {
    if assignments != [] {
      var head := step(slots, assignments[0]);
      FoldUpdatesExisting(step, head.slots, assignments[1..]);
      forall id | id in Fold(step, slots, assignments).updatedSlots ensures SlotIndex(slots, id).Some? {
        if id !in head.updatedSlots {
          SameStructureSlotIds(head.slots, slots, id);
        }
      }
    }
  }

  /** A step that skips untargeted entries makes a request with no slot ids change and report nothing. */
  lemma {:induction false} FoldWithoutTargets(step: Step, slots: seq<LineupSlot>, assignments: seq<SlotAssignment>)
    requires forall t, a :: !Targets(a) ==> step(t, a) == BulkOutcome([], [], t)
    ensures (forall k :: 0 <= k < |assignments| ==> !Targets(assignments[k])) ==>
      Fold(step, slots, assignments) == BulkOutcome([], [], slots)
    decreases |assignments|
  {
    if assignments != [] {
      FoldWithoutTargets(step, slots, assignments[1..]);
      if forall k :: 0 <= k < |assignments| ==> !Targets(assignments[k]) {
        assert forall k :: 0 <= k < |assignments[1..]| ==> assignments[1..][k] == assignments[k + 1];
      }
    }
  }

  /** A loop that has consumed `k` entries moves on by the `k`-th entry's step. */
  lemma FoldAdvance(step: Step, slots: seq<LineupSlot>, assignments: seq<SlotAssignment>, k: nat,
                    updated: seq<int>, warnings: seq<Warning>, whole: BulkOutcome, head: BulkOutcome)
    requires k < |assignments|
    requires var rest := Fold(step, slots, assignments[k..]);
      whole == BulkOutcome(updated + rest.updatedSlots, warnings + rest.warnings, rest.slots)
    requires step(slots, assignments[k]) == head
    ensures var rest := Fold(step, head.slots, assignments[k + 1..]);
      whole == BulkOutcome((updated + head.updatedSlots) + rest.updatedSlots,
                           (warnings + head.warnings) + rest.warnings, rest.slots)
  {
    assert assignments[k..][0] == assignments[k] && assignments[k..][1..] == assignments[k + 1..];
    var next := Fold(step, head.slots, assignments[k + 1..]);
    assert updated + (head.updatedSlots + next.updatedSlots) == (updated + head.updatedSlots) + next.updatedSlots;
    assert warnings + (head.warnings + next.warnings) == (warnings + head.warnings) + next.warnings;
  }

  /**
   * `bulk_update_slots`'s loop over the tables: every entry with a slot id
   * ends up exactly once as an updated slot or as an error warning, updated
   * slots are slots of the table, and the table's structure is unchanged.
   */
  function BulkAssign(players: seq<Player>, templates: seq<LineupTemplate>, slots: seq<LineupSlot>,
                      assignments: seq<SlotAssignment>): (o: BulkOutcome)
    ensures SameStructure(o.slots, slots)
    ensures |o.updatedSlots| + ErrorCount(o.warnings) == |Filter(assignments, Targets)|
    ensures forall id :: id in o.updatedSlots ==> SlotIndex(slots, id).Some?
    ensures (forall k :: 0 <= k < |assignments| ==> !Targets(assignments[k])) ==> o == BulkOutcome([], [], slots)
  {
    var step := BulkStepOf(players, templates);
    FoldStructure(step, slots, assignments);
    FoldCounts(step, slots, assignments);
    FoldUpdatesExisting(step, slots, assignments);
    FoldWithoutTargets(step, slots, assignments);
    Fold(step, slots, assignments)
  }

  function BulkStepOf(players: seq<Player>, templates: seq<LineupTemplate>): Step
  {
    (t: seq<LineupSlot>, a: SlotAssignment) => BulkStep(players, templates, t, a)
  }

  /** A request split in two is the first half, then the second half on the table the first half left. */
  lemma BulkAssignAppend(players: seq<Player>, templates: seq<LineupTemplate>, slots: seq<LineupSlot>,
                         first: seq<SlotAssignment>, second: seq<SlotAssignment>)
    ensures var o1 := BulkAssign(players, templates, slots, first);
      var o2 := BulkAssign(players, templates, o1.slots, second);
      BulkAssign(players, templates, slots, first + second)
        == BulkOutcome(o1.updatedSlots + o2.updatedSlots, o1.warnings + o2.warnings, o2.slots)
  {
    FoldAppend(BulkStepOf(players, templates), slots, first, second);
  }

  /**
   * `bulk_update_slots`: rejects an unknown template, then runs the entries
   * in order. The slots need not belong to `templateId`: only their own
   * template's team is checked.
   */
  method BulkUpdateSlots(db: Session, templateId: int, assignments: seq<SlotAssignment>)
    returns (r: Result<(seq<int>, seq<Warning>), ServiceError>)
    requires db.Valid()
    modifies db
    ensures db.Valid()
    ensures r.Failure? <==> GetTemplate(old(db.templates), templateId).None?
    ensures r.Failure? ==> r.error == NewServiceError("Template with ID " + IntToString(templateId) + " not found")
    ensures r.Failure? ==> db.slots == old(db.slots)
    ensures r.Success? ==>
      var o := BulkAssign(old(db.players), old(db.templates), old(db.slots), assignments);
      r.value == (o.updatedSlots, o.warnings) && db.slots == o.slots
    ensures db.teams == old(db.teams) && db.players == old(db.players) && db.templates == old(db.templates)
    ensures db.nextTeamId == old(db.nextTeamId) && db.nextPlayerId == old(db.nextPlayerId)
    ensures db.nextTemplateId == old(db.nextTemplateId) && db.nextSlotId == old(db.nextSlotId)
  {
    if GetTemplate(db.templates, templateId).None? {
      return Failure(NewServiceError("Template with ID " + IntToString(templateId) + " not found"));
    }
    var updatedSlots, allWarnings := RunEntries(db, assignments);
    BulkAssignIsFold(old(db.players), old(db.templates), old(db.slots), assignments);
    return Success((updatedSlots, allWarnings));
  }

  lemma BulkAssignIsFold(players: seq<Player>, templates: seq<LineupTemplate>, slots: seq<LineupSlot>,
                         assignments: seq<SlotAssignment>)
    ensures BulkAssign(players, templates, slots, assignments) == Fold(BulkStepOf(players, templates), slots, assignments)
  {
  }

  /** The loop of `bulk_update_slots`, entry by entry. */
  method RunEntries(db: Session, assignments: seq<SlotAssignment>) returns (updatedSlots: seq<int>, allWarnings: seq<Warning>)
    requires db.Valid()
    modifies db
    ensures db.Valid()
    ensures Fold(BulkStepOf(old(db.players), old(db.templates)), old(db.slots), assignments)
         == BulkOutcome(updatedSlots, allWarnings, db.slots)
    ensures db.teams == old(db.teams) && db.players == old(db.players) && db.templates == old(db.templates)
    ensures db.nextTeamId == old(db.nextTeamId) && db.nextPlayerId == old(db.nextPlayerId)
    ensures db.nextTemplateId == old(db.nextTemplateId) && db.nextSlotId == old(db.nextSlotId)
  {
    ghost var step := BulkStepOf(db.players, db.templates);
    ghost var whole := Fold(step, db.slots, assignments);
    allWarnings := [];
    updatedSlots := [];
    assert assignments[0..] == assignments;
    for k := 0 to |assignments|
      invariant db.Valid()
      invariant db.teams == old(db.teams) && db.players == old(db.players) && db.templates == old(db.templates)
      invariant db.nextTeamId == old(db.nextTeamId) && db.nextPlayerId == old(db.nextPlayerId)
      invariant db.nextTemplateId == old(db.nextTemplateId) && db.nextSlotId == old(db.nextSlotId)
      invariant var rest := Fold(step, db.slots, assignments[k..]);
        whole == BulkOutcome(updatedSlots + rest.updatedSlots, allWarnings + rest.warnings, rest.slots)
    {
      ghost var before := db.slots;
      var updated, warnings := RunEntry(db, assignments[k]);
      FoldAdvance(step, before, assignments, k, updatedSlots, allWarnings, whole, BulkOutcome(updated, warnings, db.slots));
      updatedSlots := updatedSlots + updated;
      allWarnings := allWarnings + warnings;
    }
    assert assignments[|assignments|..] == [];
    assert Fold(step, db.slots, []) == BulkOutcome([], [], db.slots);
    assert updatedSlots + [] == updatedSlots && allWarnings + [] == allWarnings;
  }

  /** One pass of the loop of `bulk_update_slots`: what it appends to `updated_slots` and to `all_warnings`. */
  method RunEntry(db: Session, a: SlotAssignment) returns (updated: seq<int>, warnings: seq<Warning>)
    requires db.Valid()
    modifies db
    ensures db.Valid()
    ensures BulkStepOf(old(db.players), old(db.templates))(old(db.slots), a) == BulkOutcome(updated, warnings, db.slots)
    ensures db.teams == old(db.teams) && db.players == old(db.players) && db.templates == old(db.templates)
    ensures db.nextTeamId == old(db.nextTeamId) && db.nextPlayerId == old(db.nextPlayerId)
    ensures db.nextTemplateId == old(db.nextTemplateId) && db.nextSlotId == old(db.nextSlotId)
  {
    if a.slotId.None? {
      return [], [];
    }
    ghost var before := db.slots;
    var result := AssignPlayerToSlot(db, a.slotId.value, a.playerId);
    BulkStepOfAssign(db.players, db.templates, before, a,
                     Assign(db.players, db.templates, before, a.slotId.value, a.playerId));
    match result {
      case Success(res) =>
        updated, warnings := [a.slotId.value], res.warnings;
      case Failure(e) =>
        updated, warnings := [], [FailureWarning(a.slotId.value, e)];
    }
  }

  /**
   * `save_lineup`: stamps the template with the time it was saved (the clock
   * reading is given by the caller); an unknown template changes nothing.
   */
  method SaveLineup(db: Session, templateId: int, now: Timestamp) returns (r: Result<LineupTemplate, ServiceError>)
    requires db.Valid()
    modifies db
    ensures db.Valid()
    ensures r.Failure? <==> GetTemplate(old(db.templates), templateId).None?
    ensures r.Failure? ==> r.error == NewServiceError("Template with ID " + IntToString(templateId) + " not found")
    ensures r.Failure? ==> db.templates == old(db.templates)
    ensures r.Success? ==>
      var i := TemplateIndex(old(db.templates), templateId).value;
      && r.value == old(db.templates)[i].(dateSaved := Some(now))
      && db.templates == old(db.templates)[i := r.value]
    ensures db.teams == old(db.teams) && db.players == old(db.players) && db.slots == old(db.slots)
    ensures db.nextTeamId == old(db.nextTeamId) && db.nextPlayerId == old(db.nextPlayerId)
    ensures db.nextTemplateId == old(db.nextTemplateId) && db.nextSlotId == old(db.nextSlotId)
  {
    var index := TemplateIndex(db.templates, templateId);
    if index.None? {
      return Failure(NewServiceError("Template with ID " + IntToString(templateId) + " not found"));
    }
    db.SetDateSaved(index.value, now);
    return Success(db.templates[index.value]);
  }

  // ---------------------------------------------------------------------------
  // Reading a lineup

  predicate OrderLe(a: LineupSlot, b: LineupSlot) {
    a.orderIndex <= b.orderIndex
  }

  predicate InTemplate(s: LineupSlot, templateId: int) {
    s.templateId == templateId
  }

  /** `get_lineup_with_slots`: the template and exactly its slots, by ascending order index. */
  function GetLineupWithSlots(templates: seq<LineupTemplate>, slots: seq<LineupSlot>, templateId: int)
    : (r: Result<(LineupTemplate, seq<LineupSlot>), ServiceError>)
    ensures r.Failure? <==> GetTemplate(templates, templateId).None?
    ensures r.Failure? ==> r.error == NewServiceError("Template with ID " + IntToString(templateId) + " not found")
    ensures r.Success? ==> r.value.0 in templates && r.value.0.id == templateId
    ensures r.Success? ==> forall i, j :: 0 <= i <= j < |r.value.1| ==> r.value.1[i].orderIndex <= r.value.1[j].orderIndex
    ensures r.Success? ==> multiset(r.value.1) == multiset(Filter(slots, (s: LineupSlot) => InTemplate(s, templateId)))
    ensures r.Success? ==> forall s :: s in r.value.1 <==> s in slots && s.templateId == templateId
  {
    match GetTemplate(templates, templateId)
    case None => Failure(NewServiceError("Template with ID " + IntToString(templateId) + " not found"))
    case Some(template) =>
      var mine := Filter(slots, (s: LineupSlot) => InTemplate(s, templateId));
      assert Connected(OrderLe);
      var ordered := Sort(mine, OrderLe);
      SortedByOrderIndex(ordered);
      FilterMembers(slots, (s: LineupSlot) => InTemplate(s, templateId));
      assert forall s :: s in ordered <==> s in multiset(ordered);
      assert forall s :: s in mine <==> s in multiset(mine);
      Success((template, ordered))
  }

  /** Sorted by adjacent pairs is sorted by every pair. */
  lemma {:induction false} SortedByOrderIndex(s: seq<LineupSlot>)
    requires SortedBy(s, OrderLe)
    ensures forall i, j :: 0 <= i <= j < |s| ==> s[i].orderIndex <= s[j].orderIndex
  {
    if |s| > 1 {
      SortedByOrderIndex(s[1..]);
      assert forall j :: 1 <= j < |s| ==> s[j] == s[1..][j - 1];
      assert OrderLe(s[0], s[1]);
    }
  }

  /** `_get_assigned_player_ids`: the players held by some slot of the template. */
  function AssignedPlayerIds(slots: seq<LineupSlot>, templateId: int): (ids: set<int>)
    ensures forall id :: id in ids <==> FindPlayerInLineup(slots, templateId, id).Some?
  {
    var ids := set i | 0 <= i < |slots| && slots[i].templateId == templateId && slots[i].playerId.Some?
                     :: slots[i].playerId.value;
    assert forall id :: id in ids <==> exists i :: 0 <= i < |slots| && Holds(slots[i], templateId, id);
    ids
  }

  /**
   * `get_available_players`: the team's players, in table order; when a
   * template id is given and is not 0, those already in one of its slots
   * are dropped.
   */
  function AvailablePlayers(players: seq<Player>, slots: seq<LineupSlot>, teamId: int, templateId: Option<int>)
    : (r: seq<Player>)
    ensures |r| <= |players|
    ensures multiset(r) <= multiset(players)
    ensures forall p :: p in r <==>
      p in players && p.teamId == teamId
      && (templateId.None? || templateId.value == 0 || FindPlayerInLineup(slots, templateId.value, p.id).None?)
  {
    var teamPlayers := Filter(players, (p: Player) => p.teamId == teamId);
    FilterMembers(players, (p: Player) => p.teamId == teamId);
    if templateId.None? || templateId.value == 0 then teamPlayers
    else
      var taken := AssignedPlayerIds(slots, templateId.value);
      FilterMembers(teamPlayers, (p: Player) => p.id !in taken);
      Filter(teamPlayers, (p: Player) => p.id !in taken)
  }
}
