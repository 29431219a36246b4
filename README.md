# pfin lineup and roster rules in Dafny

This project models the business rules of the pfin hockey-team manager:
- the team registry;
- the player roster and its CSV import and export;
- lineup templates with their 20 seeded slots, slot assignment with soft warnings, and bulk assignment;
- the readiness check and slot grouping that come before printing a lineup;
- the service-error taxonomy and its HTTP mapping.

It also proves properties of the model.

The database session is a `Store.Session` object. It holds one sequence per table (teams, players, templates, slots) in insertion order, plus the next id each table's autoincrement hands out. Rows are values, and a row's identity is its id.

Operations follow the shape of the code:
- Operations that change the session are methods with `modifies db`. Each states its new state as a function of the old one:
  - `AssignPlayerToSlot` by `Assign`;
  - `BulkUpdateSlots` by `BulkAssign`;
  - `ImportPlayers` by `ImportRows`;
  - `SeedLineupSlots` and `CreateLineupTemplate` by `StandardSlots`;
  - `SaveLineup` and `CreateTeam` by the row they change or add.
- Loops that change nothing but local lists are methods proved equal to a function: `WriteRows` to `ExportRows`, `StandardSlotRows` to `StandardSlots`, and `GroupByNumber` (inside `OrganizeSlotsByType`) to `Groups`.
- Pure decisions are functions with contracts.
- Properties that relate several calls are lemmas.

Modules:

| Module | File | Contents |
|---|---|---|
| `Wrappers` | `wrappers.dfy` | `Option` and `Result` |
| `Seqs` | `seqs.dfy` | first match, filter, insertion sort |
| `Strings` | `strings.dfy` | the Python string operations the code uses: `strip`, `upper`, `split`, `startswith`, `str(int)`, `int(str)`, `isdigit` and string order |
| `Models` | `models.dfy` | the enumerations and the four records |
| `Errors` | `errors.dfy` | the error classes and `service_error_to_http_exception` |
| `Store` | `store.dfy` | the session |
| `Validators` | `validators.dfy` | the field validators |
| `LineupService` | `lineup.dfy` | the lineup service |
| `CsvService` | `csv.dfy` | the CSV service |
| `PdfService` | `pdf.dfy` | grouping and readiness |
| `TeamsRouter` | `teams.dfy` | the team endpoints |

Behaviour of the code worth knowing:
- Seeding creates 4·3 + 3·2 + 2 = 20 slots.
- The lineup service raises a plain `ServiceError` for every failure, including a slot, template or player that is missing and a player from another team. So every one of them maps to HTTP 400, not 404 or 409.
- A bad or missing CSV header makes the import fail. It fails with the `ServiceError` "CSV import failed: …" (400), not with a validation error.
- The CSV email check only requires a `.` in the part after the first `@`, so `a@b.c@d` passes. It does not require exactly one `@`.
- The duplicate warning of an assignment looks only at the first slot of the template holding the player. Re-assigning a player to that same slot gives no warning, even when the player also holds a later slot (`LineupService.DuplicateMissedWhenTargetComesFirst`).
- `bulk_update_slots` never checks that an entry's slot belongs to the template it was called for.

## Model

| member | source | states |
|---|---|---|
| Models.ParsePosition | app/models.py:9-13 | `Position(s)` succeeds exactly on the three values F, D, G and yields the member with that value |
| Models.PositionValuesDistinct | app/models.py:9-13 | positions are equal exactly when their values are, so the enumeration is exactly {F, D, G} |
| Models.StatusValuesDistinct | app/models.py:22-27 | the four statuses have four distinct values |
| Models.SlotTypeValuesDistinct | app/models.py:30-34 | the three slot types have three distinct values |
| Models.PlayerDefaults | app/models.py:55-66 | a new player is Active, with no jersey, hand, birthdate, email or phone, and satisfies the 1..99 jersey bound |
| Errors.NewServiceError | utils/errors.py:8-20 | the base error keeps its message, its code (default `SERVICE_ERROR`) and its details |
| Errors.NewValidationError | utils/errors.py:23-38 | code `VALIDATION_ERROR`; `field` enters the details exactly when it is a non-empty string; every other detail is kept and nothing else is added |
| Errors.NewNotFoundError | utils/errors.py:41-55 | code `NOT_FOUND`; message "{type} with ID {id} not found"; details are the given ones plus `resource_type` and `resource_id` |
| Errors.NewConflictError | utils/errors.py:58-71 | code `CONFLICT`; `conflicting_field` enters the details exactly when it is a non-empty string; every other detail is kept |
| Errors.ToHttpException | utils/errors.py:74-116 | validation errors give 422, not-found 404, conflict 409 and any other service error 400, each as an if-and-only-if; the detail carries code, message and details unchanged |
| Errors.StatusIdentifiesKind | utils/errors.py:77-116 | two error classes get the same status exactly when they are the same class |
| Errors.ConstructedErrorsMapConsistently | utils/errors.py:8-116 | each constructor's error maps to its own status and carries its own code |
| Validators.ValidateJerseyNumber | utils/validators.py:13-24 | None or an integer within 1..99 passes and is returned unchanged; anything else fails |
| Validators.ValidateIsoDate | utils/validators.py:27-43 | a falsy value gives None; a truthy value passes exactly when it is a string the ISO parser accepts, and the parsed date is returned |
| Validators.ValidateBirthYear | utils/validators.py:45-60 | None or an integer within 1900..current year passes unchanged; anything else fails |
| Validators.ValidateEmailFormat | utils/validators.py:62-83 | a falsy value gives None; otherwise the value passes exactly when it is a string of 5..255 characters that splits on `@` into two non-empty parts with a `.` in the domain; it is returned unchanged |
| Validators.SplitAtSingleSeparator | utils/validators.py:75-77 | a string with one `@` splits into exactly the parts before and after it |
| Validators.ValidatePhoneFormat | utils/validators.py:85-99 | a falsy value gives None; otherwise the value passes exactly when it holds 10..15 digit characters, and the original formatted string is returned |
| Validators.ValidatePlayerData | utils/validators.py:102-143 | succeeds exactly when every present checked key passes; the result has the input's key set, copies unchecked keys untouched, and replaces each checked key with its validator's value; a failure's message starts with the first failing field's name |
| Store.GetTeam | routers/teams.py:57 | `session.get(Team, id)` finds a team with that id exactly when one exists |
| Store.TemplateIndex | services/lineup_service.py:315-317 | the position of the template `session.get` returns, absent exactly when there is none |
| Store.Session.SetDateSaved | services/lineup_service.py:319-321 | only that template's `date_saved` changes |
| LineupService.StandardSlots | services/lineup_service.py:17-19 | a template gets exactly 20 empty slots of its own: 12 FWD, then 6 DEF, then 2 G |
| LineupService.StandardSlotsOrdered | services/lineup_service.py:67-99 | the 20 order indices strictly increase, so they are distinct and every FWD index < every DEF index < every G index |
| LineupService.StandardSlotLabels | services/lineup_service.py:66-99 | the labels are "FWD1 LW" … "FWD4 RW", "DEF1 L" … "DEF3 R", "G Starter", "G Backup", in that order |
| LineupService.ForwardLabels | services/lineup_service.py:67-76 | forward slot (line, idx) is labelled "FWD{line} {LW\|C\|RW}" |
| LineupService.DefenseLabels | services/lineup_service.py:79-88 | defence slot (pair, idx) is labelled "DEF{pair} {L\|R}" |
| LineupService.ForwardSlotAt | services/lineup_service.py:67-76 | slot (line-1)·3+idx is the forward slot with index line·10+idx |
| LineupService.DefenseSlotAt | services/lineup_service.py:79-88 | slot 12+(pair-1)·2+idx is the defence slot with index 100+pair·10+idx |
| LineupService.StandardSlotRows | services/lineup_service.py:62-99 | the nested seeding loops build exactly the standard slots |
| LineupService.SeedLineupSlots | services/lineup_service.py:62-103 | the session gains exactly the standard slots under fresh ids; the other tables are unchanged |
| LineupService.CreateLineupTemplate | services/lineup_service.py:22-59 | fails exactly when the team is missing, with "Team with ID {id} not found", and then adds nothing and hands out no id; otherwise adds one template and its 20 slots |
| LineupService.PositionCompatibility | services/lineup_service.py:208-221 | a position is compatible with a slot type exactly when F↔FWD, D↔DEF or G↔G |
| LineupService.FindPlayerInLineup | services/lineup_service.py:197-205 | finds a slot of the template holding the player exactly when one exists |
| LineupService.AssignmentWarnings | services/lineup_service.py:150-183 | the warning kinds are, in order: duplicate iff the found slot is another slot, status iff not Active, position iff incompatible; the duplicate warning names the found slot, the status warning is among them, the position warning comes last; never an error warning |
| LineupService.CheckAssignment | services/lineup_service.py:124-183 | on success, the slot was found and the warnings are the soft ones only, empty when clearing; every failure is a plain service error |
| LineupService.Assign | services/lineup_service.py:106-194 | a failure leaves every slot unchanged; a success changes only the target slot's player, to the argument; clearing gives no warnings |
| LineupService.AssignFailsExactly | services/lineup_service.py:124-148 | assignment fails exactly when the slot, its template or the player is missing, or the player is on another team |
| LineupService.AssignWarningsOnSuccess | services/lineup_service.py:144-183 | a successful assignment of a player means the teams match and the warnings are the duplicate, status and position checks |
| LineupService.CrossTeamIsBadRequest | services/lineup_service.py:144-148 | a player from another team is rejected, nothing changes, and the HTTP status is 400 |
| LineupService.DuplicateMissedWhenTargetComesFirst | services/lineup_service.py:151-154 | a player holding two slots, re-assigned to the first of them, gets no duplicate warning |
| LineupService.AssignPlayerToSlot | services/lineup_service.py:106-194 | the method's result and new slot table are those of `Assign`; no other table changes |
| LineupService.BulkStep | services/lineup_service.py:279-293 | a `None` slot id is skipped without change; otherwise exactly one of "slot id recorded" or "one error warning" happens |
| LineupService.BulkStepOfAssign | services/lineup_service.py:285-293 | a step records the slot and its warnings on success, and one error warning "Failed to update slot …" on failure |
| LineupService.FoldAppend | services/lineup_service.py:278-293 | processing two batches in turn equals processing them together: earlier items stay applied, results concatenate |
| LineupService.FoldCounts | services/lineup_service.py:278-293 | updated ids plus error warnings number exactly the entries that have a slot id |
| LineupService.FoldUpdatesExisting | services/lineup_service.py:286-287 | every recorded id names an existing slot |
| LineupService.FoldWithoutTargets | services/lineup_service.py:282-283 | a batch without slot ids changes nothing and reports nothing |
| LineupService.BulkAssign | services/lineup_service.py:278-293 | the slot table keeps its structure; the updated ids plus error warnings equal the targeted entries; the recorded ids exist |
| LineupService.BulkAssignAppend | services/lineup_service.py:278-293 | bulk assignment of a concatenation is the bulk assignment of its second part after its first |
| LineupService.BulkUpdateSlots | services/lineup_service.py:253-301 | fails exactly when the template is missing, changing nothing; otherwise the result and new slots are those of `BulkAssign` |
| LineupService.RunEntries | services/lineup_service.py:278-293 | the loop leaves the session and results the fold of the entries describes |
| LineupService.SaveLineup | services/lineup_service.py:304-323 | fails exactly when the template is missing; otherwise that template, alone, gets `date_saved` set to the supplied time and is returned |
| LineupService.GetLineupWithSlots | services/lineup_service.py:224-250 | fails exactly when the template is missing; otherwise returns that template and exactly the template's slots, each once, ordered by order index |
| LineupService.AssignedPlayerIds | services/lineup_service.py:358-367 | a player id is in the set exactly when a slot of the template holds it |
| LineupService.AvailablePlayers | services/lineup_service.py:326-355 | a player is available exactly when on the team and, for a truthy template id, not held by a slot of that template; no player more often than in the query rows |
| CsvService.MissingHeaders | services/csv_service.py:81-83 | the expected headers absent from the file's header row |
| CsvService.HeaderProblem | services/csv_service.py:78-88 | the import may proceed exactly when there is a header row holding all eight expected headers; extra columns are allowed; no header row gives "CSV file is empty or invalid", otherwise the message lists exactly the missing headers |
| CsvService.ParseJersey | services/csv_service.py:198-202 | a blank cell gives no jersey; otherwise the cell must parse as `int`, else "Invalid jersey number" |
| CsvService.ParseHand | services/csv_service.py:204-213 | blank gives none; L/LEFT gives L and R/RIGHT gives R, case-insensitive; anything else fails |
| CsvService.ParseDate | services/csv_service.py:219-228 | the first of the three formats, in order, that parses wins; none parsing fails |
| CsvService.ParseBirthdate | services/csv_service.py:215-230 | a blank cell gives no birthdate; otherwise the date of `ParseDate`, or "Invalid birthdate: Invalid date format" |
| CsvService.ParseStatus | services/csv_service.py:238-253 | blank leaves the default; the eight synonyms are matched case-insensitively; any other value becomes Active |
| CsvService.ParsePlayerRow | services/csv_service.py:187-255 | succeeds exactly when the required cells are present and jersey, hand and birthdate parse; the data is the stripped and parsed cells |
| CsvService.ValidatePlayerData | services/csv_service.py:258-291 | accepts exactly a non-empty name, a valid position, a jersey in 1..99, an email with `@` and a `.` after it, and a phone with at least 10 digits |
| CsvService.FindDuplicate | services/csv_service.py:294-302 | finds a player of the team with that name exactly when one exists |
| CsvService.ImportRow | services/csv_service.py:92-123 | a row is accepted exactly when it parses, validates and its name is new in the team, and the player is the parsed row; a parse or validation failure is reported under "general" with its message and `str(row)`; a duplicate under "name" with "Duplicate player: {name}" and the name; every rejection carries its row number |
| CsvService.RowJudgeSound | services/csv_service.py:92-123 | every accepted player belongs to the team, has a new name and a valid jersey; every error reports its own row |
| CsvService.ImportCounts | services/csv_service.py:91-123 | every row is counted once; imported + skipped is the row count; the error list grows by exactly the skipped rows |
| CsvService.ImportErrorRows | services/csv_service.py:91-123 | the errors keep earlier entries and report the rows' own numbers, increasing from the first data row |
| CsvService.ImportAppends | services/csv_service.py:100-114 | the table keeps its rows and gains accepted players with consecutive ids; rows accepted earlier count as existing, so the team's names stay distinct |
| CsvService.ImportPlayers | services/csv_service.py:57-139 | a header problem fails the whole import with "CSV import failed: …" and adds nothing; otherwise counts, errors and the new table are those of the row fold from row 2 |
| CsvService.RunRows | services/csv_service.py:91-123 | the row loop leaves the counters, errors and table the fold describes |
| CsvService.ExportRows | services/csv_service.py:163-177 | one row per player, in order, each that player's formatted row |
| CsvService.ExportPlayers | services/csv_service.py:142-179 | the rows are the team's players' rows, in table order |
| CsvService.WriteRows | services/csv_service.py:163-177 | the writing loop produces exactly the formatted rows |
| CsvService.ExportParsesBack | services/csv_service.py:163-177 | an exported row parses back to the player's data |
| CsvService.ExportImportsBack | services/csv_service.py:92-114 | an exported row of a valid player whose name is new imports as that same player |
| CsvService.HandRoundTrip | services/csv_service.py:168 | an exported hand cell parses back to the same hand |
| CsvService.StatusRoundTrip | services/csv_service.py:175 | an exported status cell parses back to the same status |
| CsvService.JerseyRoundTrip | services/csv_service.py:167 | a non-zero jersey, or no jersey, survives export and import |
| CsvService.BirthdateRoundTrip | services/csv_service.py:169-172 | a birthdate written as `YYYY-MM-DD` reads back with the first format |
| PdfService.OfType | services/pdf_service.py:144-146 | exactly the slots of that type, drawn from the input |
| PdfService.WithPrefix | services/pdf_service.py:150-154 | exactly the slots whose label starts with the key |
| PdfService.SortByOrder | services/pdf_service.py:156 | sorted by order index and a permutation of its input |
| PdfService.Group | services/pdf_service.py:149-168 | group n is sorted by order index and holds exactly the slots of the type labelled "{prefix}{n}…" |
| PdfService.Goalies | services/pdf_service.py:146-172 | the G list holds exactly the goalie slots, sorted by order index |
| PdfService.Groups | services/pdf_service.py:149-168 | the list of groups 1..n, group i at position i-1 |
| PdfService.GroupByNumber | services/pdf_service.py:149-168 | the grouping loop builds exactly those groups |
| PdfService.OrganizeSlotsByType | services/pdf_service.py:129-174 | 4 forward lines and 3 defence pairs, each the matching group, and the sorted goalies |
| PdfService.GroupsDisjoint | services/pdf_service.py:149-168 | with single-digit numbers no slot is in two groups |
| PdfService.StandardForwardGrouped | services/pdf_service.py:149-157 | each seeded forward slot lands in its own line |
| PdfService.FilledSlots | services/pdf_service.py:249-251 | exactly the slots that hold a player |
| PdfService.CountAssigned | services/pdf_service.py:249-251 | the number of filled slots; at most the slot count; 0 exactly when all slots are empty, all of them exactly when all are filled |
| PdfService.AssignedGoalies | services/pdf_service.py:259-263 | the number of filled slots among the goalie slots; at most the assigned count; positive exactly when some goalie slot is filled |
| PdfService.GenerateValidationWarnings | services/pdf_service.py:281-305 | "Only n players" iff n < 12, "No goalies" iff 0, "Only 1 goalie" iff 1, "% empty" iff assigned < 0.8·total, in this order; no warnings exactly when none applies |
| PdfService.Assess | services/pdf_service.py:248-275 | the assigned and goalie counts are those of the slots; minimum iff at least 12 assigned, goalies iff a goalie slot is filled, valid iff both; the warnings are those of the counts |
| PdfService.ValidateLineupForPdf | services/pdf_service.py:230-278 | fails exactly when the template is missing, with the message wrapped in "Lineup validation failed: "; otherwise the assessment of the template's ordered slots |
| PdfService.FullStandardLineupReady | services/pdf_service.py:248-305 | a fully filled 20-slot lineup with its goalie slots is valid and has no warnings |
| TeamsRouter.TeamLeTransitive | routers/teams.py:16 | the name-then-season order is transitive |
| TeamsRouter.SortedTeamsPairwise | routers/teams.py:16 | a list ordered neighbour by neighbour is ordered for every pair |
| TeamsRouter.ListTeams | routers/teams.py:13-18 | returns every team exactly once, ordered by name and then season |
| TeamsRouter.FindTeam | routers/teams.py:27-30 | finds a team with that name and season exactly when one exists |
| TeamsRouter.AddKeepsUnique | routers/teams.py:26-46 | adding a team whose pair is free keeps the (name, season) pairs unique |
| TeamsRouter.OtherSeasonDoesNotConflict | tests/integration/test_teams.py:108-119 | a team of another season does not block the name |
| TeamsRouter.CreateTeam | routers/teams.py:21-49 | 409 "Team '…' already exists for season '…'" exactly when the pair exists, leaving the registry alone; otherwise adds exactly that team under the next id; uniqueness is preserved |
| TeamsRouter.GetTeam | routers/teams.py:52-65 | 404 "Team with ID {id} not found" exactly when no team has the id; otherwise that team |

## Left out

- The database: I/O, `commit`, `flush`, `refresh` and `rollback`, and concurrency. The session is an in-memory object, and a failed import simply leaves it unchanged.
- Autoflush: the duplicate query of the CSV import sees players accepted earlier in the same batch, as autoflush makes it do.
- `created_at` timestamps: not modelled. `save_lineup` takes the current time as a parameter.
- `validate_birth_year` takes the current year as a parameter.
- Tokenising by `csv.DictReader` and `csv.DictWriter`: not modelled.
  - A read row is given as its eight expected cells, with `None` for the cells a short row lacks.
  - An export returns the rows, not the CSV text with its header line.
  - The `KeyError` a missing column could raise cannot happen once the header check has passed.
- The issues report (`_create_issues_file`, `get_issues_file_content`, `cleanup_issues_file`): temporary-file I/O whose failure is swallowed.
- `CSVImportResult.to_dict` and the issues file path: the result carries only the counts and the errors.
- `OPTIONAL_HEADERS`: the code never reads it.
- Calendar validity of dates: `strptime` and `date.fromisoformat` are parameters of the model.
- `str(row)` in a row error is a parameter.
- `str.strip`, `str.upper` and `str.isdigit` are modelled for the characters the data uses: Python's whitespace set, ASCII letters and ASCII digits. Other Unicode case mappings and digit characters are not modelled.
- CsvService.HeaderProblem: lists the missing headers in header order; Python joins them in set order, which is unspecified.
- PdfService.GenerateValidationWarnings: the warning does not carry the `%.0f` empty-percentage text. The 0.8 comparison is stated exactly, as 5·assigned < 4·total.
- PDF rendering (`generate_lineup_pdf`, `_render_pdf_template`, `_html_to_pdf`) and its player look-ups: HTML templating and a PDF library.
- The `create_*` helper functions and the `handle_service_errors` decorator: they only wrap the constructors and `ToHttpException`.
- Aliasing: rows are values, so the model has no aliasing between objects.
- Ties in sorting: a SQL `ORDER BY` leaves the order among equal keys open. The model picks one, and its contracts say only what the query promises.
- Export order is table order.
- The `TeamIn` request schema and its validation, and the other routers: HTTP plumbing.
- Uniqueness of (name, season) is not a property of the Team table: only `create_team` keeps it. The model states it as `TeamsRouter.UniqueNameSeason`, which `CreateTeam` preserves.
