/**
 * The player CSV import and export. Rows are read only once all eight
 * expected headers are present, so a data row is given by its eight expected
 * cells (other columns are never read); the cells a short row lacks are
 * `None`, as `csv.DictReader` fills them. Dates are parsed by a `strptime`
 * the caller supplies, one format at a time, and the `str(row)` of an error
 * report is supplied the same way.
 */
module CsvService {
  import opened Wrappers
  import opened Seqs
  import opened Strings
  import opened Models
  import opened Errors
  import opened Store

  /** The columns an import requires and an export writes, in this order. */
  const ExpectedHeaders: seq<string> := ["name", "position", "jersey", "hand", "birthdate", "email", "phone", "status"]

  /** A row as read, its eight expected cells in header order: `None` for a cell a short row lacks. */
  datatype Row = Row(
    name: Option<string>, position: Option<string>, jersey: Option<string>, hand: Option<string>,
    birthdate: Option<string>, email: Option<string>, phone: Option<string>, status: Option<string>)

  /** A row as written, in header order. */
  datatype Written = Written(
    name: string, position: string, jersey: string, hand: string,
    birthdate: string, email: string, phone: string, status: string)

  datatype DateFormat = YearMonthDay | MonthDayYear | DayMonthYear

  /** `%Y-%m-%d`, `%m/%d/%Y` and `%d/%m/%Y`, tried in this order. */
  const DateFormats: seq<DateFormat> := [YearMonthDay, MonthDayYear, DayMonthYear]

  /** `datetime.strptime(s, fmt).date()`, `None` where it raises `ValueError`. */
  type DateParser = (string, DateFormat) -> Option<Date>

  // ---------------------------------------------------------------------------
  // Headers

  function MissingHeaders(fieldnames: seq<string>): (r: seq<string>)
    ensures forall h :: h in r <==> h in ExpectedHeaders && h !in fieldnames
  {
    FilterMembers(ExpectedHeaders, h => h !in fieldnames);
    Filter(ExpectedHeaders, h => h !in fieldnames)
  }

  /** The message that aborts an import before any row is read, or `None` when the headers will do. */
  function HeaderProblem(fieldnames: seq<string>): (r: Option<string>)
    ensures r.None? <==> |fieldnames| > 0 && forall h :: h in ExpectedHeaders ==> h in fieldnames
    ensures |fieldnames| == 0 ==> r == Some("CSV file is empty or invalid")
    ensures r.Some? && |fieldnames| > 0 ==> StartsWith(r.value, "Missing required headers: ")
    ensures r.Some? && |fieldnames| > 0 ==>
      r.value == "Missing required headers: " + Join(MissingHeaders(fieldnames), ", ")
  {
    if |fieldnames| == 0 then Some("CSV file is empty or invalid")
    else
      var missing := MissingHeaders(fieldnames);
      if |missing| > 0 then
        assert missing[0] in missing;
        Some("Missing required headers: " + Join(missing, ", "))
      else
        assert forall h :: h in ExpectedHeaders ==> h !in missing;
        None
  }

  // ---------------------------------------------------------------------------
  // Parsing one row

  /** What `str(e)` gives for the `AttributeError` of stripping a missing cell. */
  const NoneStripMessage := "'NoneType' object has no attribute 'strip'"

  /** No cell is missing. */
  predicate Readable(row: Row) {
    && row.name.Some? && row.position.Some? && row.jersey.Some? && row.hand.Some?
    && row.birthdate.Some? && row.email.Some? && row.phone.Some? && row.status.Some?
  }

  /** The stripped text of a cell that is there. */
  function Text(cell: Option<string>): string {
    if cell.Some? then Strip(cell.value) else ""
  }

  /** `row[key].strip()`, and `row.get(key, "").strip()` for a key a row always has. */
  function Stripped(cell: Option<string>): (r: Result<string, string>)
    ensures r.Success? <==> cell.Some?
    ensures r.Success? ==> r.value == Text(cell)
  {
    match cell
    case None => Failure(NoneStripMessage)
    case Some(s) => Success(Strip(s))
  }

  /** The jersey column, already stripped: blank is absent, otherwise `int()` must accept it. */
  function ParseJersey(cell: string): (r: Result<Option<int>, string>)
    ensures cell == "" ==> r == Success(None)
    ensures cell != "" ==> (r.Success? <==> ParseInt(cell).Some?)
    ensures r.Success? && cell != "" ==> r.value == ParseInt(cell)
    ensures r.Failure? ==> r.error == "Invalid jersey number"
  {
    if cell == "" then Success(None)
    else match ParseInt(cell)
      case Some(n) => Success(Some(n))
      case None => Failure("Invalid jersey number")
  }

  const HandMessage := "Invalid hand value (must be L/Left or R/Right)"

  /** The hand column: `L`/`LEFT` and `R`/`RIGHT`, in any case; anything else non-blank is an error. */
  function ParseHand(cell: string): (r: Result<Option<Hand>, string>)
    ensures r == Success(None) <==> cell == ""
    ensures r == Success(Some(L)) <==> Upper(cell) in {"L", "LEFT"}
    ensures r == Success(Some(R)) <==> Upper(cell) in {"R", "RIGHT"}
    ensures r.Failure? <==> cell != "" && Upper(cell) !in {"L", "LEFT", "R", "RIGHT"}
  {
    if cell == "" then Success(None)
    else
      var handValue := Upper(cell);
      assert |handValue| > 0;
      if handValue in ["L", "LEFT"] then Success(Some(L))
      else if handValue in ["R", "RIGHT"] then Success(Some(R))
      else Failure(HandMessage)
  }

  /** The `for ... else` over the formats: the first format that parses wins. */
  function ParseDate(s: string, strptime: DateParser): (r: Option<Date>)
    ensures r.Some? <==> exists i :: 0 <= i < |DateFormats| && strptime(s, DateFormats[i]).Some?
    ensures r.Some? ==> exists i :: 0 <= i < |DateFormats| && r == strptime(s, DateFormats[i])
                          && forall j :: 0 <= j < i ==> strptime(s, DateFormats[j]).None?
  {
    match First(DateFormats, f => strptime(s, f).Some?)
    case Some(i) => strptime(s, DateFormats[i])
    case None => None
  }

  function ParseBirthdate(cell: string, strptime: DateParser): (r: Result<Option<Date>, string>)
    ensures cell == "" ==> r == Success(None)
    ensures cell != "" ==> (r.Success? <==> ParseDate(cell, strptime).Some?)
    ensures r.Success? && cell != "" ==> r.value == ParseDate(cell, strptime)
    ensures r.Failure? ==> r.error == "Invalid birthdate: Invalid date format"
  {
    if cell == "" then Success(None)
    else match ParseDate(cell, strptime)
      case Some(d) => Success(Some(d))
      case None => Failure("Invalid birthdate: Invalid date format")
  }

  /** `status_map.get(value.upper())`. */
  function StatusSynonym(key: string): Option<PlayerStatus> {
    if key == "ACTIVE" || key == "ACT" then Some(Active)
    else if key == "AFFILIATE" || key == "AFF" then Some(Affiliate)
    else if key == "INJURED" || key == "INJ" then Some(Injured)
    else if key == "INACTIVE" || key == "INA" then Some(Inactive)
    else None
  }

  /** The status column: blank leaves the column default; an unknown value becomes Active. */
  function ParseStatus(cell: string): (r: Option<PlayerStatus>)
    ensures r.None? <==> cell == ""
    ensures r == Some(Affiliate) <==> cell != "" && Upper(cell) in {"AFFILIATE", "AFF"}
    ensures r == Some(Injured) <==> cell != "" && Upper(cell) in {"INJURED", "INJ"}
    ensures r == Some(Inactive) <==> cell != "" && Upper(cell) in {"INACTIVE", "INA"}
    ensures r == Some(Active) <==> cell != "" && Upper(cell) !in {"AFFILIATE", "AFF", "INJURED", "INJ", "INACTIVE", "INA"}
  {
    if cell == "" then None else Some(StatusSynonym(Upper(cell)).GetOr(Active))
  }

  /** The dictionary `_parse_player_row` builds; a key it leaves out is `None` here. */
  datatype PlayerData = PlayerData(
    teamId: int,
    name: string,
    position: string,
    jersey: Option<int>,
    hand: Option<Hand>,
    birthdate: Option<Date>,
    email: Option<string>,
    phone: Option<string>,
    status: Option<PlayerStatus>)

  /** A blank stripped cell leaves its key out. */
  function Present(cell: string): Option<string> {
    if cell == "" then None else Some(cell)
  }

  /** `_parse_player_row`: the columns are read in header order and the first failure is raised. */
  function ParsePlayerRow(row: Row, teamId: int, strptime: DateParser): (r: Result<PlayerData, string>)
    ensures r.Success? <==>
      && Readable(row)
      && ParseJersey(Text(row.jersey)).Success?
      && ParseHand(Text(row.hand)).Success?
      && ParseBirthdate(Text(row.birthdate), strptime).Success?
    ensures r.Success? ==> r.value == PlayerData(
      teamId, Text(row.name), Upper(Text(row.position)),
      ParseJersey(Text(row.jersey)).value, ParseHand(Text(row.hand)).value,
      ParseBirthdate(Text(row.birthdate), strptime).value,
      Present(Text(row.email)), Present(Text(row.phone)), ParseStatus(Text(row.status)))
  {
    var name :- Stripped(row.name);
    var position :- Stripped(row.position);
    var jerseyCell :- Stripped(row.jersey);
    var jersey :- ParseJersey(jerseyCell);
    var handCell :- Stripped(row.hand);
    var hand :- ParseHand(handCell);
    var birthdateCell :- Stripped(row.birthdate);
    var birthdate :- ParseBirthdate(birthdateCell, strptime);
    var email :- Stripped(row.email);
    var phone :- Stripped(row.phone);
    var status :- Stripped(row.status);
    Success(PlayerData(teamId, name, Upper(position), jersey, hand, birthdate,
                       Present(email), Present(phone), ParseStatus(status)))
  }

  // ---------------------------------------------------------------------------
  // Validating one row

  /** `"." in email.split("@")[1]`: the text between the first `@` and the next one. */
  predicate EmailDomainHasDot(email: string)
    requires '@' in email
  {
    var parts := Split(email, '@');
    assert multiset(email)['@'] > 0;
    '.' in parts[1]
  }

  /** `_validate_player_data`: `None` when the row passes, otherwise the message it raises. */
  function ValidatePlayerData(data: PlayerData): (r: Option<string>)
    ensures r.None? <==>
      && data.name != ""
      && ParsePosition(data.position).Some?
      && ValidJersey(data.jersey)
      && (data.email.Some? && data.email.value != "" ==> '@' in data.email.value && EmailDomainHasDot(data.email.value))
      && (data.phone.Some? && data.phone.value != "" ==> |Digits(data.phone.value)| >= 10)
  {
    if data.name == "" then Some("Name is required")
    else if ParsePosition(data.position).None? then Some("Invalid position: " + data.position)
    else if data.jersey.Some? && !(1 <= data.jersey.value <= 99) then Some("Jersey number must be between 1 and 99")
    else if data.email.Some? && data.email.value != "" && ('@' !in data.email.value || !EmailDomainHasDot(data.email.value))
    then Some("Invalid email format")
    else if data.phone.Some? && data.phone.value != "" && |Digits(data.phone.value)| < 10 then Some("Phone number too short")
    else None
  }

  // ---------------------------------------------------------------------------
  // Importing

  /** `_find_duplicate_player`: the first player of the team with that name. */
  function FindDuplicate(players: seq<Player>, teamId: int, name: string): (r: Option<Player>)
    ensures r.Some? ==> r.value in players && r.value.teamId == teamId && r.value.name == name
    ensures r.None? <==> forall i :: 0 <= i < |players| ==> !(players[i].teamId == teamId && players[i].name == name)
  {
    match First(players, (p: Player) => p.teamId == teamId && p.name == name)
    case Some(i) => Some(players[i])
    case None => None
  }

  /** `Player(**player_data)`, before the session assigns the id. */
  function NewPlayer(data: PlayerData, position: Position): Player {
    Player(0, data.teamId, data.name, position, data.jersey, data.hand, data.birthdate,
           data.email, data.phone, data.status.GetOr(Active))
  }

  /** One entry of `result.errors`. */
  datatype RowError = RowError(row: int, field: string, reason: string, value: string)

  datatype RowOutcome = Accepted(player: Player) | Rejected(error: RowError)

  /** The body of the row loop: parse, validate, reject a duplicate, or accept. */
  function ImportRow(existing: seq<Player>, teamId: int, row: Row, rowNum: int,
                     strptime: DateParser, show: Row -> string): (o: RowOutcome)
    ensures o.Accepted? <==>
      && ParsePlayerRow(row, teamId, strptime).Success?
      && ValidatePlayerData(ParsePlayerRow(row, teamId, strptime).value).None?
      && FindDuplicate(existing, teamId, ParsePlayerRow(row, teamId, strptime).value.name).None?
    ensures o.Accepted? ==> o.player.teamId == teamId && o.player.name != "" && ValidJersey(o.player.jersey)
    ensures o.Accepted? ==>
      forall i :: 0 <= i < |existing| ==> !(existing[i].teamId == teamId && existing[i].name == o.player.name)
    ensures o.Rejected? ==> o.error.row == rowNum
    ensures o.Rejected? && o.error.field != "general" ==>
      o.error.field == "name" && o.error.value in set p | p in existing && p.teamId == teamId :: p.name
    ensures var d := ParsePlayerRow(row, teamId, strptime);
      d.Failure? ==> o == Rejected(RowError(rowNum, "general", d.error, show(row)))
    ensures var d := ParsePlayerRow(row, teamId, strptime);
      d.Success? && ValidatePlayerData(d.value).Some? ==>
        o == Rejected(RowError(rowNum, "general", ValidatePlayerData(d.value).value, show(row)))
    ensures var d := ParsePlayerRow(row, teamId, strptime);
      d.Success? && ValidatePlayerData(d.value).None? && FindDuplicate(existing, teamId, d.value.name).Some? ==>
        o == Rejected(RowError(rowNum, "name", "Duplicate player: " + d.value.name, d.value.name))
    ensures var d := ParsePlayerRow(row, teamId, strptime);
      o.Accepted? ==>
        d.Success? && ParsePosition(d.value.position).Some?
        && o.player == NewPlayer(d.value, ParsePosition(d.value.position).value)
  {
    match ParsePlayerRow(row, teamId, strptime)
    case Failure(e) => Rejected(RowError(rowNum, "general", e, show(row)))
    case Success(data) =>
      match ValidatePlayerData(data)
      case Some(e) => Rejected(RowError(rowNum, "general", e, show(row)))
      case None =>
        match FindDuplicate(existing, teamId, data.name)
        case Some(p) => Rejected(RowError(rowNum, "name", "Duplicate player: " + data.name, data.name))
        case None => Accepted(NewPlayer(data, ParsePosition(data.position).value))
  }

  /** The row-loop body as a value: the table so far, the row and its number give the outcome. */
  type Judge = (seq<Player>, Row, int) -> RowOutcome

  function RowJudge(teamId: int, strptime: DateParser, show: Row -> string): Judge {
    (existing: seq<Player>, row: Row, rowNum: int) => ImportRow(existing, teamId, row, rowNum, strptime, show)
  }

  /**
   * What the loop relies on about its body: a rejection reports its own row
   * number, and an accepted player belongs to the team, has a name no player
   * of the team in the table has, and a valid jersey.
   */
  ghost predicate Sound(judge: Judge, teamId: int) {
    forall existing, row, rowNum ::
      && (judge(existing, row, rowNum).Rejected? ==> judge(existing, row, rowNum).error.row == rowNum)
      && (judge(existing, row, rowNum).Accepted? ==> Admissible(existing, teamId, judge(existing, row, rowNum).player))
  }

  predicate Admissible(existing: seq<Player>, teamId: int, p: Player) {
    && p.teamId == teamId && p.name != "" && ValidJersey(p.jersey)
    && forall i :: 0 <= i < |existing| ==> !(existing[i].teamId == teamId && existing[i].name == p.name)
  }

  lemma RowJudgeSound(teamId: int, strptime: DateParser, show: Row -> string)
    ensures Sound(RowJudge(teamId, strptime, show), teamId)
  {
    var judge := RowJudge(teamId, strptime, show);
    forall existing, row, rowNum
      ensures judge(existing, row, rowNum).Rejected? ==> judge(existing, row, rowNum).error.row == rowNum
      ensures judge(existing, row, rowNum).Accepted? ==> Admissible(existing, teamId, judge(existing, row, rowNum).player)
    {
      var o := ImportRow(existing, teamId, row, rowNum, strptime, show);
      assert judge(existing, row, rowNum) == o;
    }
  }

  /** The counters, the error list and the player table as the row loop leaves them. */
  datatype ImportState = ImportState(imported: nat, skipped: nat, errors: seq<RowError>, players: seq<Player>, nextId: int)

  /** One row: an accepted player is added and gets the next id, a rejected one is counted and reported. */
  function Advance(s: ImportState, judge: Judge, row: Row, rowNum: int): ImportState {
    match judge(s.players, row, rowNum)
    case Accepted(p) =>
      s.(imported := s.imported + 1, players := s.players + [p.(id := s.nextId)], nextId := s.nextId + 1)
    case Rejected(e) =>
      s.(skipped := s.skipped + 1, errors := s.errors + [e])
  }

  /** The loop over `enumerate(rows, start=firstRow)`. */
  function ImportRows(s: ImportState, judge: Judge, rows: seq<Row>, firstRow: int): ImportState {
    if |rows| == 0 then s
    else Advance(ImportRows(s, judge, rows[..|rows| - 1], firstRow), judge, rows[|rows| - 1], firstRow + |rows| - 1)
  }

  /** Every row is counted once, and every skipped row has exactly one error entry. */
  lemma {:induction false} ImportCounts(s: ImportState, judge: Judge, rows: seq<Row>, firstRow: int)
    ensures var r := ImportRows(s, judge, rows, firstRow);
      && r.imported + r.skipped == s.imported + s.skipped + |rows|
      && |r.errors| - |s.errors| == r.skipped - s.skipped
      && r.nextId - s.nextId == r.imported - s.imported
      && |r.players| - |s.players| == r.imported - s.imported
  {
    if |rows| > 0 {
      ImportCounts(s, judge, rows[..|rows| - 1], firstRow);
    }
  }

  /** The report lists the rejected rows in file order, by their row numbers. */
  lemma {:induction false} ImportErrorRows(s: ImportState, judge: Judge, teamId: int, rows: seq<Row>, firstRow: int)
    requires Sound(judge, teamId)
    ensures var r := ImportRows(s, judge, rows, firstRow);
      && |s.errors| <= |r.errors|
      && r.errors[..|s.errors|] == s.errors
      && (forall i :: |s.errors| <= i < |r.errors| ==> firstRow <= r.errors[i].row < firstRow + |rows|)
      && (forall i, j :: |s.errors| <= i < j < |r.errors| ==> r.errors[i].row < r.errors[j].row)
  {
    if |rows| > 0 {
      var before := ImportRows(s, judge, rows[..|rows| - 1], firstRow);
      ImportErrorRows(s, judge, teamId, rows[..|rows| - 1], firstRow);
      var rowNum := firstRow + |rows| - 1;
      match judge(before.players, rows[|rows| - 1], rowNum)
      case Accepted(_) =>
      case Rejected(e) =>
        assert e.row == rowNum;
        assert (before.errors + [e])[..|s.errors|] == before.errors[..|s.errors|];
    }
  }

  /** No two players of the team share a name. */
  predicate TeamNamesDistinct(players: seq<Player>, teamId: int) {
    forall i, j :: 0 <= i < j < |players| && players[i].teamId == teamId && players[j].teamId == teamId ==>
      players[i].name != players[j].name
  }

  /**
   * Rows only ever append players of the team, with consecutive fresh ids,
   * and a row whose name a player of the team already has (one imported
   * by an earlier row included) is never added.
   */
  lemma {:induction false} ImportAppends(s: ImportState, judge: Judge, teamId: int, rows: seq<Row>, firstRow: int)
    requires Sound(judge, teamId)
    ensures var r := ImportRows(s, judge, rows, firstRow);
      && |s.players| <= |r.players|
      && r.players[..|s.players|] == s.players
      && (forall i :: |s.players| <= i < |r.players| ==>
            r.players[i].teamId == teamId && r.players[i].id == s.nextId + (i - |s.players|)
            && r.players[i].name != "" && ValidJersey(r.players[i].jersey))
      && (TeamNamesDistinct(s.players, teamId) ==> TeamNamesDistinct(r.players, teamId))
  {
    if |rows| > 0 {
      var before := ImportRows(s, judge, rows[..|rows| - 1], firstRow);
      ImportAppends(s, judge, teamId, rows[..|rows| - 1], firstRow);
      ImportCounts(s, judge, rows[..|rows| - 1], firstRow);
      var rowNum := firstRow + |rows| - 1;
      match judge(before.players, rows[|rows| - 1], rowNum)
      case Accepted(p) =>
        assert Admissible(before.players, teamId, p);
        var added := p.(id := before.nextId);
        assert (before.players + [added])[..|s.players|] == before.players[..|s.players|];
        AppendKeepsNamesDistinct(before.players, teamId, added);
      case Rejected(_) =>
    }
  }

  lemma AppendKeepsNamesDistinct(players: seq<Player>, teamId: int, p: Player)
    requires forall i :: 0 <= i < |players| ==> !(players[i].teamId == teamId && players[i].name == p.name)
    ensures TeamNamesDistinct(players, teamId) ==> TeamNamesDistinct(players + [p], teamId)
  {
  }

  /** What `import_players` returns; the issues file it may write is not modelled. */
  datatype ImportResult = ImportResult(imported: nat, skipped: nat, errors: seq<RowError>)

  /**
   * `import_players`: checks the headers, then runs the row loop against the
   * session, adding each accepted player as it goes so that later rows see it.
   * A header problem fails the import before anything is added.
   */
  method ImportPlayers(db: Session, teamId: int, fieldnames: seq<string>, rows: seq<Row>,
                       strptime: DateParser, show: Row -> string)
    returns (r: Result<ImportResult, ServiceError>)
    requires db.Valid()
    modifies db
    ensures db.Valid()
    ensures r.Failure? <==> HeaderProblem(fieldnames).Some?
    ensures r.Failure? ==>
      && r.error == NewServiceError("CSV import failed: " + HeaderProblem(fieldnames).value)
      && db.players == old(db.players) && db.nextPlayerId == old(db.nextPlayerId)
    ensures r.Success? ==>
      var o := ImportRows(ImportState(0, 0, [], old(db.players), old(db.nextPlayerId)), RowJudge(teamId, strptime, show), rows, 2);
      && r.value == ImportResult(o.imported, o.skipped, o.errors)
      && db.players == o.players && db.nextPlayerId == o.nextId
    ensures db.teams == old(db.teams) && db.templates == old(db.templates) && db.slots == old(db.slots)
    ensures db.nextTeamId == old(db.nextTeamId) && db.nextTemplateId == old(db.nextTemplateId)
    ensures db.nextSlotId == old(db.nextSlotId)
  {
    var problem := HeaderProblem(fieldnames);
    if problem.Some? {
      return Failure(NewServiceError("CSV import failed: " + problem.value));
    }
    var imported, skipped, errors := RunRows(db, RowJudge(teamId, strptime, show), rows);
    return Success(ImportResult(imported, skipped, errors));
  }

  /** The row loop of `import_players`, numbering the rows from 2. */
  method RunRows(db: Session, judge: Judge, rows: seq<Row>) returns (imported: nat, skipped: nat, errors: seq<RowError>)
    requires db.Valid()
    modifies db
    ensures db.Valid()
    ensures ImportRows(ImportState(0, 0, [], old(db.players), old(db.nextPlayerId)), judge, rows, 2)
         == ImportState(imported, skipped, errors, db.players, db.nextPlayerId)
    ensures db.teams == old(db.teams) && db.templates == old(db.templates) && db.slots == old(db.slots)
    ensures db.nextTeamId == old(db.nextTeamId) && db.nextTemplateId == old(db.nextTemplateId)
    ensures db.nextSlotId == old(db.nextSlotId)
  {
    ghost var start := ImportState(0, 0, [], db.players, db.nextPlayerId);
    imported, skipped, errors := 0, 0, [];
    for k := 0 to |rows|
      invariant db.Valid()
      invariant ImportRows(start, judge, rows[..k], 2)
             == ImportState(imported, skipped, errors, db.players, db.nextPlayerId)
      invariant db.teams == old(db.teams) && db.templates == old(db.templates) && db.slots == old(db.slots)
      invariant db.nextTeamId == old(db.nextTeamId) && db.nextTemplateId == old(db.nextTemplateId)
      invariant db.nextSlotId == old(db.nextSlotId)
    {
      assert rows[..k + 1][..k] == rows[..k];
      var outcome := judge(db.players, rows[k], k + 2);
      match outcome {
        case Accepted(p) =>
          var added := db.AddPlayer(p);
          imported := imported + 1;
        case Rejected(e) =>
          errors := errors + [e];
          skipped := skipped + 1;
      }
    }
    assert rows[..|rows|] == rows;
  }

  // ---------------------------------------------------------------------------
  // Exporting

  /** The row `export_players` writes for a player: blanks for the absent (or falsy) optional columns. */
  function ExportRow(p: Player): Written {
    Written(
      p.name,
      PositionValue(p.position),
      if p.jersey.None? || p.jersey.value == 0 then "" else IntToString(p.jersey.value),
      if p.hand.Some? then HandValue(p.hand.value) else "",
      if p.birthdate.Some? then FormatIso(p.birthdate.value) else "",
      p.email.GetOr(""),
      p.phone.GetOr(""),
      StatusValue(p.status))
  }

  function TeamPlayers(players: seq<Player>, teamId: int): seq<Player> {
    Filter(players, (p: Player) => p.teamId == teamId)
  }

  /** The rows written for `players`, one per player, in order. */
  function ExportRows(players: seq<Player>): (rows: seq<Written>)
    ensures |rows| == |players|
    ensures forall i :: 0 <= i < |players| ==> rows[i] == ExportRow(players[i])
  {
    if |players| == 0 then [] else ExportRows(players[..|players| - 1]) + [ExportRow(players[|players| - 1])]
  }

  /** `export_players`: one row per player of the team, in table order. */
  method ExportPlayers(db: Session, teamId: int) returns (rows: seq<Written>)
    ensures rows == ExportRows(TeamPlayers(db.players, teamId))
  {
    rows := WriteRows(TeamPlayers(db.players, teamId));
  }

  /** The loop of `export_players` over the team's players. */
  method WriteRows(players: seq<Player>) returns (rows: seq<Written>)
    ensures rows == ExportRows(players)
  {
    rows := [];
    for i := 0 to |players|
      invariant rows == ExportRows(players[..i])
    {
      assert players[..i + 1][..i] == players[..i];
      rows := rows + [ExportRow(players[i])];
    }
    assert players[..|players|] == players;
  }

  /** A written row as the reader reads it back: every cell present. */
  function AsRead(w: Written): Row {
    Row(Some(w.name), Some(w.position), Some(w.jersey), Some(w.hand), Some(w.birthdate),
            Some(w.email), Some(w.phone), Some(w.status))
  }

  /** The player's columns survive a write and a read as they are. */
  predicate Exportable(p: Player, strptime: DateParser) {
    && IsStripped(p.name)
    && (p.jersey.Some? ==> p.jersey.value != 0)
    && (p.email.Some? ==> p.email.value != "" && IsStripped(p.email.value))
    && (p.phone.Some? ==> p.phone.value != "" && IsStripped(p.phone.value))
    && (p.birthdate.Some? ==> strptime(FormatIso(p.birthdate.value), YearMonthDay) == Some(p.birthdate.value))
  }

  /** The data an import of a player's exported row would produce. */
  function DataOf(p: Player): PlayerData {
    PlayerData(p.teamId, p.name, PositionValue(p.position), p.jersey, p.hand, p.birthdate,
               p.email, p.phone, Some(p.status))
  }

  /** Export then parse gives the player's own columns back. */
  lemma ExportParsesBack(p: Player, strptime: DateParser)
    requires Exportable(p, strptime)
    ensures ParsePlayerRow(AsRead(ExportRow(p)), p.teamId, strptime) == Success(DataOf(p))
  {
    ExportedCells(p, strptime);
  }

  /** Column by column, what the parser makes of an exported cell. */
  lemma ExportedCells(p: Player, strptime: DateParser)
    requires Exportable(p, strptime)
    ensures var row := AsRead(ExportRow(p));
      && Text(row.name) == p.name
      && Upper(Text(row.position)) == PositionValue(p.position)
      && ParseJersey(Text(row.jersey)) == Success(p.jersey)
      && ParseHand(Text(row.hand)) == Success(p.hand)
      && ParseBirthdate(Text(row.birthdate), strptime) == Success(p.birthdate)
      && Present(Text(row.email)) == p.email
      && Present(Text(row.phone)) == p.phone
      && ParseStatus(Text(row.status)) == Some(p.status)
  {
    NameCell(p);
    PositionCell(p);
    JerseyCell(p);
    HandCell(p);
    BirthdateCell(p, strptime);
    StatusCell(p);
  }

  lemma NameCell(p: Player)
    requires IsStripped(p.name)
    ensures Text(AsRead(ExportRow(p)).name) == p.name
  {
  }

  lemma PositionCell(p: Player)
    ensures Upper(Text(AsRead(ExportRow(p)).position)) == PositionValue(p.position)
  {
    PositionRoundTrip(p.position);
  }

  lemma JerseyCell(p: Player)
    requires p.jersey.Some? ==> p.jersey.value != 0
    ensures ParseJersey(Text(AsRead(ExportRow(p)).jersey)) == Success(p.jersey)
  {
    JerseyRoundTrip(p.jersey);
  }

  lemma HandCell(p: Player)
    ensures ParseHand(Text(AsRead(ExportRow(p)).hand)) == Success(p.hand)
  {
    HandRoundTrip(p.hand);
  }

  lemma BirthdateCell(p: Player, strptime: DateParser)
    requires p.birthdate.Some? ==> strptime(FormatIso(p.birthdate.value), YearMonthDay) == Some(p.birthdate.value)
    ensures ParseBirthdate(Text(AsRead(ExportRow(p)).birthdate), strptime) == Success(p.birthdate)
  {
    if p.birthdate.Some? {
      BirthdateRoundTrip(p.birthdate.value, strptime);
    }
  }

  lemma StatusCell(p: Player)
    ensures ParseStatus(Text(AsRead(ExportRow(p)).status)) == Some(p.status)
  {
    StatusRoundTrip(p.status);
  }

  lemma PositionRoundTrip(position: Position)
    ensures Upper(Strip(PositionValue(position))) == PositionValue(position)
  {
    var cell := PositionValue(position);
    assert IsStripped(cell);
    UpperOfUpperCase(cell);
  }

  lemma HandRoundTrip(hand: Option<Hand>)
    ensures ParseHand(Strip(if hand.Some? then HandValue(hand.value) else "")) == Success(hand)
  {
    var cell := if hand.Some? then HandValue(hand.value) else "";
    assert IsStripped(cell);
    UpperOfUpperCase(cell);
  }

  lemma StatusRoundTrip(status: PlayerStatus)
    ensures ParseStatus(Strip(StatusValue(status))) == Some(status)
  {
    var cell := StatusValue(status);
    assert IsStripped(cell);
    UpperStatusValue(status);
  }

  /** Upper-casing a status value gives its key in the synonym table. */
  lemma UpperStatusValue(status: PlayerStatus)
    ensures StatusSynonym(Upper(StatusValue(status))) == Some(status)
  {
    var up := Upper(StatusValue(status));
    match status
    case Active => assert up == "ACTIVE";
    case Affiliate => assert up == "AFFILIATE";
    case Injured => assert up == "INJURED";
    case Inactive => assert up == "INACTIVE";
  }

  lemma JerseyRoundTrip(jersey: Option<int>)
    requires jersey.Some? ==> jersey.value != 0
    ensures ParseJersey(Strip(if jersey.None? || jersey.value == 0 then "" else IntToString(jersey.value))) == Success(jersey)
  {
    if jersey.Some? {
      IntToStringStripped(jersey.value);
      IntToStringRoundTrip(jersey.value);
    }
  }

  lemma BirthdateRoundTrip(d: Date, strptime: DateParser)
    requires strptime(FormatIso(d), YearMonthDay) == Some(d)
    ensures ParseBirthdate(Strip(FormatIso(d)), strptime) == Success(Some(d))
  {
    var s := FormatIso(d);
    FormatIsoStripped(d);
    assert DateFormats[0] == YearMonthDay;
    assert First(DateFormats, f => strptime(s, f).Some?) == Some(0);
  }

  lemma FormatIsoStripped(d: Date)
    ensures IsStripped(FormatIso(d)) && FormatIso(d) != ""
  {
    var y := Pad(d.year, 4);
    var day := Pad(d.day, 2);
    assert FormatIso(d)[0] == y[0];
    PadStripped(d.year, 4);
    PadStripped(d.day, 2);
    assert FormatIso(d)[|FormatIso(d)| - 1] == day[|day| - 1];
  }

  lemma PadStripped(n: int, width: nat)
    ensures IsStripped(Pad(n, width)) && Pad(n, width) != ""
  {
    IntToStringStripped(n);
  }

  /**
   * A player whose exported columns pass the import checks is imported again,
   * with its own columns, into a table where no player of its team has its name.
   */
  lemma ExportImportsBack(p: Player, existing: seq<Player>, rowNum: int, strptime: DateParser, show: Row -> string)
    requires Exportable(p, strptime)
    requires p.name != "" && ValidJersey(p.jersey)
    requires p.email.Some? ==> '@' in p.email.value && EmailDomainHasDot(p.email.value)
    requires p.phone.Some? ==> |Digits(p.phone.value)| >= 10
    requires forall i :: 0 <= i < |existing| ==> !(existing[i].teamId == p.teamId && existing[i].name == p.name)
    ensures ImportRow(existing, p.teamId, AsRead(ExportRow(p)), rowNum, strptime, show) == Accepted(p.(id := 0))
  {
    ExportParsesBack(p, strptime);
    assert ParsePosition(PositionValue(p.position)) == Some(p.position);
  }
}
