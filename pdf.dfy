/**
 * The parts of the lineup PDF service that decide something: how the slots
 * are grouped into forward lines, defence pairs and goalies for rendering,
 * and when a lineup counts as ready. Rendering itself is not modelled.
 */
module PdfService {
  import opened Wrappers
  import opened Seqs
  import opened Strings
  import opened Models
  import opened Errors
  import opened Store
  import opened LineupService

  // ---------------------------------------------------------------------------
  // Grouping

  /** The slots grouped as the PDF template lays them out. */
  datatype Organized = Organized(fwd: seq<seq<LineupSlot>>, def: seq<seq<LineupSlot>>, g: seq<LineupSlot>)

  /** `[s for s in slots if s["slot_type"] == t]`. */
  function OfType(slots: seq<LineupSlot>, t: SlotType): (r: seq<LineupSlot>)
    ensures forall s :: s in r <==> s in slots && s.slotType == t
    ensures multiset(r) <= multiset(slots)
  {
    if |slots| == 0 then []
    else
      assert slots == [slots[0]] + slots[1..];
      if slots[0].slotType == t then [slots[0]] + OfType(slots[1..], t) else OfType(slots[1..], t)
  }

  /** `[s for s in slots if s["slot_label"].startswith(key)]`. */
  function WithPrefix(slots: seq<LineupSlot>, key: string): (r: seq<LineupSlot>)
    ensures forall s :: s in r <==> s in slots && StartsWith(s.slotLabel, key)
    ensures multiset(r) <= multiset(slots)
  {
    if |slots| == 0 then []
    else
      assert slots == [slots[0]] + slots[1..];
      if StartsWith(slots[0].slotLabel, key) then [slots[0]] + WithPrefix(slots[1..], key)
      else WithPrefix(slots[1..], key)
  }

  /** Sorting changes neither membership nor multiplicity. */
  function SortByOrder(slots: seq<LineupSlot>): (r: seq<LineupSlot>)
    ensures SortedBy(r, OrderLe)
    ensures multiset(r) == multiset(slots)
    ensures forall s :: s in r <==> s in slots
  {
    assert Connected(OrderLe);
    var r := Sort(slots, OrderLe);
    assert forall s :: s in r <==> s in multiset(r);
    assert forall s :: s in slots <==> s in multiset(slots);
    r
  }

  /**
   * Line or pair `n`: the slots of type `t` whose label starts with `prefix`
   * followed by `n`, by ascending order index, none invented or repeated.
   */
  function Group(slots: seq<LineupSlot>, t: SlotType, prefix: string, n: int): (r: seq<LineupSlot>)
    ensures SortedBy(r, OrderLe)
    ensures forall s :: s in r <==> s in slots && s.slotType == t && StartsWith(s.slotLabel, prefix + IntToString(n))
    ensures multiset(r) <= multiset(slots)
  {
    SortByOrder(WithPrefix(OfType(slots, t), prefix + IntToString(n)))
  }

  /** All goalie slots, by ascending order index. */
  function Goalies(slots: seq<LineupSlot>): (r: seq<LineupSlot>)
    ensures SortedBy(r, OrderLe)
    ensures multiset(r) <= multiset(slots)
    ensures forall s :: s in r <==> s in slots && s.slotType == SlotType.G
  {
    SortByOrder(OfType(slots, SlotType.G))
  }

  /**
   * `_organize_slots_by_type`: four forward lines keyed by `FWD1`..`FWD4`,
   * three defence pairs keyed by `DEF1`..`DEF3`, and the goalies, each sorted.
   */
  method OrganizeSlotsByType(slots: seq<LineupSlot>) returns (organized: Organized)
    ensures |organized.fwd| == ForwardLines && |organized.def| == DefensePairs
    ensures forall i :: 0 <= i < ForwardLines ==> organized.fwd[i] == Group(slots, FWD, "FWD", i + 1)
    ensures forall i :: 0 <= i < DefensePairs ==> organized.def[i] == Group(slots, DEF, "DEF", i + 1)
    ensures organized.g == Goalies(slots)
  {
    var fwd := GroupByNumber(slots, FWD, "FWD", ForwardLines);
    var def := GroupByNumber(slots, DEF, "DEF", DefensePairs);
    var gSlots := OfType(slots, SlotType.G);
    gSlots := SortByOrder(gSlots);
    organized := Organized(fwd, def, gSlots);
  }

  /** Groups `1..count` of the slots of type `t`, in order. */
  function Groups(slots: seq<LineupSlot>, t: SlotType, prefix: string, count: nat): (r: seq<seq<LineupSlot>>)
    ensures |r| == count
    ensures forall i :: 0 <= i < count ==> r[i] == Group(slots, t, prefix, i + 1)
  {
    if count == 0 then [] else Groups(slots, t, prefix, count - 1) + [Group(slots, t, prefix, count)]
  }

  /** One loop of `_organize_slots_by_type`: groups `1..count` of the slots of type `t`. */
  method GroupByNumber(slots: seq<LineupSlot>, t: SlotType, prefix: string, count: nat)
    returns (groups: seq<seq<LineupSlot>>)
    ensures groups == Groups(slots, t, prefix, count)
  {
    var typed := OfType(slots, t);
    groups := [];
    for n := 1 to count + 1
      invariant groups == Groups(slots, t, prefix, n - 1)
    {
      var group := WithPrefix(typed, prefix + IntToString(n));
      group := SortByOrder(group);
      groups := groups + [group];
    }
  }

  /** No slot sits in two lines (or two pairs): labels of different single-digit numbers do not overlap. */
  lemma GroupsDisjoint(slots: seq<LineupSlot>, t: SlotType, prefix: string, i: int, j: int, s: LineupSlot)
    requires 0 <= i < j < 10
    requires s in Group(slots, t, prefix, i)
    ensures s !in Group(slots, t, prefix, j)
  {
    SingleDigitString(i);
    SingleDigitString(j);
    var a, b := prefix + IntToString(i), prefix + IntToString(j);
    assert StartsWith(s.slotLabel, a);
    assert s.slotLabel[|prefix|] == a[|prefix|] == DigitChar(i);
    assert b[|prefix|] == DigitChar(j) != DigitChar(i);
  }

  /** Every forward slot of the standard layout lands in the line its label names. */
  lemma StandardForwardGrouped(templateId: int, k: nat)
    requires k < ForwardLines * |ForwardPositions|
    ensures StandardSlots(templateId)[k] in Group(StandardSlots(templateId), FWD, "FWD", k / 3 + 1)
  {
    var slots := StandardSlots(templateId);
    var line := k / 3 + 1;
    assert slots[k] == ForwardSlot(templateId, line, k % 3);
    assert slots[k].slotLabel == "FWD" + IntToString(line) + " " + ForwardPositions[k % 3];
  }

  // ---------------------------------------------------------------------------
  // Readiness

  /** `[slot for slot in slots if slot.player_id is not None]`. */
  function FilledSlots(slots: seq<LineupSlot>): (r: seq<LineupSlot>)
    ensures forall s :: s in r <==> s in slots && s.playerId.Some?
  {
    if |slots| == 0 then []
    else
      assert slots == [slots[0]] + slots[1..];
      if slots[0].playerId.Some? then [slots[0]] + FilledSlots(slots[1..]) else FilledSlots(slots[1..])
  }

  /** `sum(1 for slot in slots if slot.player_id is not None)`: the number of filled slots. */
  function CountAssigned(slots: seq<LineupSlot>): (n: nat)
    ensures n == |FilledSlots(slots)|
    ensures n <= |slots|
    ensures n == 0 <==> forall i :: 0 <= i < |slots| ==> slots[i].playerId.None?
    ensures n == |slots| <==> forall i :: 0 <= i < |slots| ==> slots[i].playerId.Some?
  {
    if |slots| == 0 then 0
    else
      var rest := CountAssigned(slots[1..]);
      assert forall i :: 1 <= i < |slots| ==> slots[i] == slots[1..][i - 1];
      (if slots[0].playerId.Some? then 1 else 0) + rest
  }

  /**
   * `sum(1 for slot in goalie_slots if slot.player_id is not None)`: the
   * number of filled goalie slots, never more than all filled slots.
   */
  function AssignedGoalies(slots: seq<LineupSlot>): (n: nat)
    ensures n == |FilledSlots(OfType(slots, SlotType.G))|
    ensures n <= CountAssigned(slots)
    ensures n > 0 <==> exists s :: s in slots && s.slotType == SlotType.G && s.playerId.Some?
  {
    var goalies := OfType(slots, SlotType.G);
    AssignedOfTypeBound(slots, SlotType.G);
    if CountAssigned(goalies) == 0 then
      assert forall s :: s in goalies ==> s.playerId.None?;
      0
    else
      var i :| 0 <= i < |goalies| && goalies[i].playerId.Some?;
      assert goalies[i] in slots;
      CountAssigned(goalies)
  }

  /** Filtering by type keeps no more assigned slots than there were. */
  lemma {:induction false} AssignedOfTypeBound(slots: seq<LineupSlot>, t: SlotType)
    ensures CountAssigned(OfType(slots, t)) <= CountAssigned(slots)
  {
    if |slots| > 0 {
      AssignedOfTypeBound(slots[1..], t);
      if slots[0].slotType == t {
        assert OfType(slots, t) == [slots[0]] + OfType(slots[1..], t);
        assert ([slots[0]] + OfType(slots[1..], t))[1..] == OfType(slots[1..], t);
      }
    }
  }

  /** The minimum `validate_lineup_for_pdf` asks for: four full forward lines. */
  const MinPlayers := 12

  /** The warnings `_generate_validation_warnings` can give; the percentage of `MostlyEmpty` is not modelled. */
  datatype ReadinessWarning =
    | TooFewPlayers(count: int)
    | NoGoalies
    | OneGoalie
    | MostlyEmpty

  /** The text of a warning other than the float-formatted `MostlyEmpty`. */
  function Message(w: ReadinessWarning): string
    requires !w.MostlyEmpty?
  {
    match w
    case TooFewPlayers(n) => "Only " + IntToString(n) + " players assigned (minimum 12 recommended)"
    case NoGoalies => "No goalies assigned"
    case OneGoalie => "Only 1 goalie assigned (2 recommended)"
  }

  function WarningRank(w: ReadinessWarning): nat {
    match w
    case TooFewPlayers(_) => 0
    case NoGoalies => 1
    case OneGoalie => 2
    case MostlyEmpty => 3
  }

  /**
   * `assigned_count < total_slots * 0.8`, in integers. The float product
   * rounds to the exact value whenever `total_slots` is a multiple of 5,
   * the only case where the two could disagree.
   */
  predicate UnderEightyPercent(count: int, total: int) {
    5 * count < 4 * total
  }

  function Warn(cond: bool, w: ReadinessWarning): seq<ReadinessWarning> {
    if cond then [w] else []
  }

  /**
   * `_generate_validation_warnings`: each warning exactly when its condition
   * holds, in the order the checks are made; none exactly when the lineup
   * has 12 players, two goalies and at most a fifth of its slots empty.
   */
  function GenerateValidationWarnings(count: int, total: int, goalies: int): (warnings: seq<ReadinessWarning>)
    ensures TooFewPlayers(count) in warnings <==> count < MinPlayers
    ensures NoGoalies in warnings <==> goalies == 0
    ensures OneGoalie in warnings <==> goalies == 1
    ensures MostlyEmpty in warnings <==> UnderEightyPercent(count, total)
    ensures forall w :: w in warnings && w.TooFewPlayers? ==> w == TooFewPlayers(count)
    ensures forall i, j :: 0 <= i < j < |warnings| ==> WarningRank(warnings[i]) < WarningRank(warnings[j])
    ensures warnings == [] <==> count >= MinPlayers && goalies != 0 && goalies != 1 && !UnderEightyPercent(count, total)
  {
    Warn(count < 12, TooFewPlayers(count))
      + Warn(goalies == 0, NoGoalies)
      + Warn(goalies == 1, OneGoalie)
      + Warn(UnderEightyPercent(count, total), MostlyEmpty)
  }

  /** What `validate_lineup_for_pdf` reports. */
  datatype Readiness = Readiness(
    valid: bool,
    assignedCount: nat,
    totalSlots: nat,
    hasMinimum: bool,
    hasGoalies: bool,
    assignedGoalies: nat,
    warnings: seq<ReadinessWarning>)

  /** The report on the slots of one template. */
  function Assess(slots: seq<LineupSlot>): (r: Readiness)
    ensures r.assignedCount == CountAssigned(slots) && r.assignedGoalies == AssignedGoalies(slots)
    ensures r.totalSlots == |slots| && r.assignedGoalies <= r.assignedCount <= r.totalSlots
    ensures r.hasMinimum <==> r.assignedCount >= MinPlayers
    ensures r.hasGoalies <==> exists s :: s in slots && s.slotType == SlotType.G && s.playerId.Some?
    ensures r.valid <==> r.hasMinimum && r.hasGoalies
    ensures r.valid ==> |slots| >= MinPlayers && NoGoalies !in r.warnings && TooFewPlayers(r.assignedCount) !in r.warnings
    ensures r.warnings == GenerateValidationWarnings(r.assignedCount, r.totalSlots, r.assignedGoalies)
  {
    var assignedCount := CountAssigned(slots);
    var assignedGoalies := AssignedGoalies(slots);
    Readiness(assignedCount >= MinPlayers && assignedGoalies > 0, assignedCount, |slots|,
              assignedCount >= MinPlayers, assignedGoalies > 0, assignedGoalies,
              GenerateValidationWarnings(assignedCount, |slots|, assignedGoalies))
  }

  /**
   * `validate_lineup_for_pdf`: the report on the template's slots; a missing
   * template fails with the lookup's message wrapped.
   */
  function ValidateLineupForPdf(templates: seq<LineupTemplate>, slots: seq<LineupSlot>, templateId: int)
    : (r: Result<Readiness, ServiceError>)
    ensures r.Failure? <==> GetTemplate(templates, templateId).None?
    ensures r.Failure? ==> r.error == NewServiceError(
      "Lineup validation failed: " + ("Template with ID " + IntToString(templateId) + " not found"))
    ensures r.Success? ==> r.value == Assess(GetLineupWithSlots(templates, slots, templateId).value.1)
  {
    var lineup := GetLineupWithSlots(templates, slots, templateId);
    if lineup.Failure? then Failure(NewServiceError("Lineup validation failed: " + lineup.error.message))
    else Success(Assess(lineup.value.1))
  }

  /** A fully filled standard lineup is ready and draws no warning. */
  lemma FullStandardLineupReady(slots: seq<LineupSlot>)
    requires |slots| == SlotCount
    requires forall i :: 0 <= i < |slots| ==> slots[i].playerId.Some?
    requires forall i :: 18 <= i < 20 ==> slots[i].slotType == SlotType.G
    ensures Assess(slots).valid && Assess(slots).warnings == []
  {
    var goalies := OfType(slots, SlotType.G);
    OfTypeSuffix(slots, SlotType.G, 18);
    assert forall i :: 0 <= i < |goalies| ==> goalies[i] in slots;
    assert CountAssigned(goalies) == |goalies|;
    assert slots[18] in slots;
  }

  /** A suffix of slots of type `t` is kept whole. */
  lemma {:induction false} OfTypeSuffix(slots: seq<LineupSlot>, t: SlotType, k: nat)
    requires forall i :: k <= i < |slots| ==> slots[i].slotType == t
    ensures |OfType(slots, t)| >= |slots| - k
  {
    if |slots| > 0 {
      OfTypeSuffix(slots[1..], t, if k == 0 then 0 else k - 1);
    }
  }
}
