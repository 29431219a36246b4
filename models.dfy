/**
 * The domain vocabulary: the closed enumerations and the four record shapes
 * of the team, player, lineup template and lineup slot tables.
 */
module Models {
  import opened Wrappers
  import opened Strings

  datatype Position = F | D | G

  datatype Hand = L | R

  datatype PlayerStatus = Active | Affiliate | Injured | Inactive

  datatype SlotType = FWD | DEF | G

  /** The string each enumeration member stands for (`member.value`). */
  function PositionValue(p: Position): string {
    match p
    case F => "F"
    case D => "D"
    case G => "G"
  }

  function HandValue(h: Hand): string {
    match h
    case L => "L"
    case R => "R"
  }

  function StatusValue(s: PlayerStatus): string {
    match s
    case Active => "Active"
    case Affiliate => "Affiliate"
    case Injured => "Injured"
    case Inactive => "Inactive"
  }

  function SlotTypeValue(t: SlotType): string {
    match t
    case FWD => "FWD"
    case DEF => "DEF"
    case G => "G"
  }

  /** `Position(s)`: the member whose value is `s`, or `None` where Python raises `ValueError`. */
  function ParsePosition(s: string): (r: Option<Position>)
    ensures forall p :: r == Some(p) <==> PositionValue(p) == s
  {
    if s == "F" then Some(F) else if s == "D" then Some(D) else if s == "G" then Some(Position.G) else None
  }

  /** Every position has exactly one value and every value its member: the enumeration is {F, D, G}. */
  lemma PositionValuesDistinct(p: Position, q: Position)
    ensures PositionValue(p) == PositionValue(q) <==> p == q
  {
    assert ParsePosition(PositionValue(p)) == Some(p);
  }

  lemma StatusValuesDistinct(s: PlayerStatus, t: PlayerStatus)
    ensures StatusValue(s) == StatusValue(t) <==> s == t
  {
    match s
    case Active => assert StatusValue(s)[1] == 'c';
    case Affiliate => assert StatusValue(s)[1] == 'f';
    case Injured => assert StatusValue(s)[2] == 'j';
    case Inactive => assert StatusValue(s)[2] == 'a';
  }

  lemma SlotTypeValuesDistinct(s: SlotType, t: SlotType)
    ensures SlotTypeValue(s) == SlotTypeValue(t) <==> s == t
  {
  }

  /** A calendar date; whether it exists in the calendar is not modelled. */
  datatype Date = Date(year: int, month: int, day: int)

  /** `d.strftime("%Y-%m-%d")`. */
  function FormatIso(d: Date): string {
    Pad(d.year, 4) + "-" + Pad(d.month, 2) + "-" + Pad(d.day, 2)
  }

  /** Zero padding to `width` digits, as `%Y`, `%m` and `%d` print. */
  function Pad(n: int, width: nat): (r: string)
    ensures |r| >= width
  {
    var digits := IntToString(n);
    if |digits| >= width then digits else seq(width - |digits|, _ => '0') + digits
  }

  datatype Team = Team(id: int, name: string, season: string)

  const MinJersey := 1
  const MaxJersey := 99

  /**
   * A player row. The optional columns are `None` unless given and the status
   * defaults to Active, as the column defaults say.
   */
  datatype Player = Player(
    id: int,
    teamId: int,
    name: string,
    position: Position,
    jersey: Option<int> := None,
    hand: Option<Hand> := None,
    birthdate: Option<Date> := None,
    email: Option<string> := None,
    phone: Option<string> := None,
    status: PlayerStatus := Active)

  /** The column bound on the jersey: absent, or between 1 and 99. */
  predicate ValidJersey(jersey: Option<int>) {
    jersey.None? || MinJersey <= jersey.value <= MaxJersey
  }

  lemma PlayerDefaults(id: int, teamId: int, name: string, position: Position)
    ensures var p := Player(id, teamId, name, position);
      && p.status == Active
      && p.jersey.None? && p.hand.None? && p.birthdate.None? && p.email.None? && p.phone.None?
      && ValidJersey(p.jersey)
  {
  }

  /** A reading of the clock, as the caller supplies it. */
  type Timestamp = int

  /** A template row; `date_saved` stays unset until the lineup is saved. */
  datatype LineupTemplate = LineupTemplate(id: int, teamId: int, name: string, notes: Option<string>,
                                           dateSaved: Option<Timestamp> := None)

  /** A slot row; it is created empty (`player_id` None). */
  datatype LineupSlot = LineupSlot(
    id: int,
    templateId: int,
    slotType: SlotType,
    slotLabel: string,
    orderIndex: int,
    playerId: Option<int> := None)
}
