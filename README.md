# Challenge import pipeline and game stores, in Dafny

This project models the deterministic core of a Unity quiz/idle game. The
core has two halves.

The first half is the challenge CSV import pipeline.
- A character-level CSV reader turns text into header-keyed rows. It strips
  a byte order mark, treats CR LF and lone CR as LF, handles quoted fields
  with doubled quotes, skips blank lines, treats the first remaining row as
  the header, and checks every data row's width against it.
- A row decoder reads one row into a challenge record. It collects every
  field error in field order, splits the bar-separated answer list, reads
  the three enum columns case-insensitively, and decodes the reward list.
  The record's own `Validate` then checks the result.
- The batch importer walks the decoded rows. It checks for cancellation
  before each row and stops at the first bad row. It asks before
  overwriting an existing asset, creates the asset folders, saves every
  100 rows, and registers each record in the challenge catalogue.

The second half is the game's stores and rules:
- the challenge catalogue, the runtime challenge lifecycle, the pure query
  helpers, and the solved-challenge tracker;
- the player store (money, an inventory merged by item id, facilities with
  paid unlock and upgrade) and the item and facility master catalogues;
- facility production: the settings predicates, the accumulating production
  record, the facility itself and the controller that registers facilities
  and produces for them;
- the game timer's run/pause state machine.

Each source file becomes one module, in the source's own form.
- Code that changes objects in place becomes a `class` with `modifies` and
  `reads` clauses. Its methods are proved against specification functions,
  for example `ParseCsv` against `ParseText` and `ExecuteImport` against
  `RunFrom`.
- Pure queries and checks become functions with named results. Their
  properties are proved as lemmas.
- Unity's calls become parameters or small model classes.
  - The asset database is the class `AssetDatabase` (folders, assets, a
    save counter).
  - The operator's dialog answers are functions of the row index.
  - The JSON decoder is a function parameter.
  - Engine time is a `real` parameter.
  - Singletons are passed in explicitly.
- Shared helpers live in `Wrappers` (Option/Result), `Text` (Trim, Split,
  Join, ordinal ignore-case comparison) and `Lists` (Where, Count, Remove,
  Find and FindIndex on sequences).
- A null string is mostly modelled as `""`. Most core operations test
  strings with `string.IsNullOrEmpty` or `IsNullOrWhiteSpace`, which treat
  the two alike; the places where a null string behaves differently are
  modelled explicitly or listed under "## Left out". A null list argument
  is `Option.None`, and so is the null item id of a production entry.

## Model

| member | source | states |
|---|---|---|
| CsvSimpleParser.ParseCsv | Assets/Scripts/ChallengeDB/Editor/CSVSimpleParser.cs:17-75 | The reading loop returns exactly `ParseText` of the input: the empty-text error, a row or width error, the missing-header error, or the records. |
| CsvSimpleParser.ParseRow | Assets/Scripts/ChallengeDB/Editor/CSVSimpleParser.cs:80-114 | The cursor loop returns exactly `RowAt`: fields separated by commas up to a newline (consumed) or the end, or an unexpected-character error at its position. |
| CsvSimpleParser.ParseField | Assets/Scripts/ChallengeDB/Editor/CSVSimpleParser.cs:119-146 | The field and new cursor are exactly `FieldAt`: empty at the end, quoted after a leading quote, otherwise plain text up to the next comma or newline. |
| CsvSimpleParser.ParseQuotedField | Assets/Scripts/ChallengeDB/Editor/CSVSimpleParser.cs:151-184 | The StringBuilder loop returns exactly `QuotedAt` from the character after the opening quote. |
| CsvSimpleParser.QuotedAt | Assets/Scripts/ChallengeDB/Editor/CSVSimpleParser.cs:151-184 | The quoted-field reader never moves the cursor backwards or past the end. |
| CsvSimpleParser.PlainEnd | Assets/Scripts/ChallengeDB/Editor/CSVSimpleParser.cs:133-145 | A plain field ends at the first comma or newline, or at the end; no delimiter lies before that. |
| CsvSimpleParser.FieldAt | Assets/Scripts/ChallengeDB/Editor/CSVSimpleParser.cs:119-146 | Reading a field never moves the cursor backwards or past the end. |
| CsvSimpleParser.RowAt | Assets/Scripts/ChallengeDB/Editor/CSVSimpleParser.cs:80-114 | A row read inside the text always advances the cursor; an error points inside the text at a character that is neither comma nor newline. |
| CsvSimpleParser.Records | Assets/Scripts/ChallengeDB/Editor/CSVSimpleParser.cs:61-66 | One record per data row. |
| CsvSimpleParser.QuotedEscaped | Assets/Scripts/ChallengeDB/Editor/CSVSimpleParser.cs:160-174 | A value written with every quote doubled and a closing quote reads back as the value, and the cursor ends just after the closing quote. |
| CsvSimpleParser.QuotedUnterminated | Assets/Scripts/ChallengeDB/Editor/CSVSimpleParser.cs:153-183 | A quoted field that is never closed takes the rest of the text as its value, with no error. |
| CsvSimpleParser.FieldQuoted | Assets/Scripts/ChallengeDB/Editor/CSVSimpleParser.cs:127-130 | A quoted field, commas and newlines included, reads back as its value. |
| CsvSimpleParser.FieldPlain | Assets/Scripts/ChallengeDB/Editor/CSVSimpleParser.cs:133-145 | A delimiter-free value that does not start with a quote reads back verbatim, quotes after the first character included. |
| CsvSimpleParser.RowEncoded | Assets/Scripts/ChallengeDB/Editor/CSVSimpleParser.cs:84-106 | Fields written as quoted fields separated by commas read back as those fields, whatever ends the row. |
| CsvSimpleParser.RowLastField | Assets/Scripts/ChallengeDB/Editor/CSVSimpleParser.cs:91-106 | A field followed by a newline or the end of the text is the row's last field. |
| CsvSimpleParser.RowAfterComma | Assets/Scripts/ChallengeDB/Editor/CSVSimpleParser.cs:97-101 | After a comma the row continues with the next field. |
| CsvSimpleParser.RowTrailingComma | Assets/Scripts/ChallengeDB/Editor/CSVSimpleParser.cs:91-101 | A comma that is the last character of the text adds no empty field. |
| CsvSimpleParser.RowUnexpectedAfterQuote | Assets/Scripts/ChallengeDB/Editor/CSVSimpleParser.cs:107-110 | A character other than comma, newline or quote after a closing quote is an unexpected-character error naming that position and character. |
| CsvSimpleParser.RowEncodedLine | Assets/Scripts/ChallengeDB/Editor/CSVSimpleParser.cs:80-114 | An encoded row with its newline reads back as its fields, and the cursor lands after the newline. |
| CsvSimpleParser.TableStepHeader | Assets/Scripts/ChallengeDB/Editor/CSVSimpleParser.cs:48-52 | The first row that is not skipped becomes the header and is not returned as data. |
| CsvSimpleParser.TableStepRecord | Assets/Scripts/ChallengeDB/Editor/CSVSimpleParser.cs:55-66 | A data row as wide as the header becomes one record, and the row counter goes up by one. |
| CsvSimpleParser.TableStepMismatch | Assets/Scripts/ChallengeDB/Editor/CSVSimpleParser.cs:55-59 | A data row of another width is an error naming the row counter, the expected width and the actual width. |
| CsvSimpleParser.TableEncoded | Assets/Scripts/ChallengeDB/Editor/CSVSimpleParser.cs:36-67 | Encoded data rows under a header read back as their records, in order. |
| CsvSimpleParser.TableMismatch | Assets/Scripts/ChallengeDB/Editor/CSVSimpleParser.cs:55-59 | The first data row of the wrong width fails the whole table with its row number. |
| CsvSimpleParser.SkipEmptyLine | Assets/Scripts/ChallengeDB/Editor/CSVSimpleParser.cs:42-45 | An empty line and a line holding only `""` are skipped but still counted. |
| CsvSimpleParser.NewlinesOnly | Assets/Scripts/ChallengeDB/Editor/CSVSimpleParser.cs:69-72 | Text made only of newlines has no header row. |
| CsvSimpleParser.NoHeaderRowCases | Assets/Scripts/ChallengeDB/Editor/CSVSimpleParser.cs:19-72 | Empty text is the empty-text error; text of only newlines, or a byte order mark alone, is the missing-header error. |
| CsvSimpleParser.RowMapLookup | Assets/Scripts/ChallengeDB/Editor/CSVSimpleParser.cs:61-66 | A record's keys are exactly the header names, and each name maps to the value in its last column, so a later duplicate header wins. |
| CsvSimpleParser.ReadHeader | Assets/Scripts/ChallengeDB/Editor/CSVSimpleParser.cs:48-52 | Reading an encoded table sets its header row aside and continues at the first data row, with the row counter at 1. |
| CsvSimpleParser.CleanEncoded | Assets/Scripts/ChallengeDB/Editor/CSVSimpleParser.cs:25-28 | An encoded table without carriage returns or a leading byte order mark is not changed by the cleanup. |
| CsvSimpleParser.ParseEncodedTable | Assets/Scripts/ChallengeDB/Editor/CSVSimpleParser.cs:17-75 | Round trip: a table encoded with a header and rows of the same width parses back to exactly its records. |
| CsvSimpleParser.ParseEncodedMismatch | Assets/Scripts/ChallengeDB/Editor/CSVSimpleParser.cs:55-59 | In an encoded table, the first data row k of the wrong width fails with row number k + 2 and both widths. |
| CsvSimpleParser.NormalizeRemovesCr | Assets/Scripts/ChallengeDB/Editor/CSVSimpleParser.cs:28 | No carriage return survives the newline cleanup. |
| CsvSimpleParser.ReplaceCrRemovesCr | Assets/Scripts/ChallengeDB/Editor/CSVSimpleParser.cs:28 | No carriage return survives the second replacement. |
| CsvSimpleParser.NormalizeFree | Assets/Scripts/ChallengeDB/Editor/CSVSimpleParser.cs:28 | Text without carriage returns is left as it is. |
| CsvSimpleParser.ReplaceCrLfFree | Assets/Scripts/ChallengeDB/Editor/CSVSimpleParser.cs:28 | The CR LF replacement leaves CR-free text alone. |
| CsvSimpleParser.ReplaceCrFree | Assets/Scripts/ChallengeDB/Editor/CSVSimpleParser.cs:28 | The CR replacement leaves CR-free text alone. |
| CsvSimpleParser.ReplaceCrConcat | Assets/Scripts/ChallengeDB/Editor/CSVSimpleParser.cs:28 | The CR replacement works piece by piece. |
| CsvSimpleParser.ReplaceCrLfConcat | Assets/Scripts/ChallengeDB/Editor/CSVSimpleParser.cs:28 | The CR LF replacement works piece by piece unless a CR LF pair is split at the join. |
| CsvSimpleParser.NormalizeConcat | Assets/Scripts/ChallengeDB/Editor/CSVSimpleParser.cs:28 | The newline cleanup works piece by piece unless a CR LF pair is split at the join. |
| CsvSimpleParser.RemoveBomConcat | Assets/Scripts/ChallengeDB/Editor/CSVSimpleParser.cs:189-196 | Only a leading byte order mark is removed, and the removal does not reach past the first piece. |
| CsvSimpleParser.ParseCrLfAsLf | Assets/Scripts/ChallengeDB/Editor/CSVSimpleParser.cs:28 | A CR LF pair anywhere in the text parses exactly like a single LF. |
| CsvSimpleParser.ParseCrAsLf | Assets/Scripts/ChallengeDB/Editor/CSVSimpleParser.cs:28 | A lone CR, one not followed by LF, parses exactly like LF. |
| CsvSimpleParser.ParseIgnoresBom | Assets/Scripts/ChallengeDB/Editor/CSVSimpleParser.cs:25 | A leading byte order mark does not change the parse. |
| ChallengeCsvParser.ParseEnumSpec | Assets/Scripts/ChallengeDB/Editor/ChallengeCSVParser.cs:229-232 | The enum reader returns a member whose name equals the trimmed value ignoring case, and returns none exactly when no member's name does. |
| ChallengeCsvParser.FirstNamedSpec | Assets/Scripts/ChallengeDB/Editor/ChallengeCSVParser.cs:229-232 | The name search finds a matching member, and finds none exactly when no member matches. |
| ChallengeCsvParser.ParseEnumIgnoresCase | Assets/Scripts/ChallengeDB/Editor/ChallengeCSVParser.cs:229-232 | Values that agree after trimming and ignoring case read as the same member. |
| ChallengeCsvParser.FirstNamedIgnoresCase | Assets/Scripts/ChallengeDB/Editor/ChallengeCSVParser.cs:229-232 | Keys that agree ignoring case find the same member. |
| ChallengeCsvParser.DifficultyNamesDistinct | Assets/Scripts/ChallengeDB/ChallengeEnums.cs:6-13 | Two different difficulties have names that differ even ignoring case, so the name match is unambiguous. |
| ChallengeCsvParser.TypeNamesDistinct | Assets/Scripts/ChallengeDB/ChallengeEnums.cs:18-25 | Two different challenge types have names that differ even ignoring case. |
| ChallengeCsvParser.ParseDifficultyName | Assets/Scripts/ChallengeDB/Editor/ChallengeCSVParser.cs:65-75 | Every difficulty's name, in any case and with surrounding whitespace, reads back as that difficulty. |
| ChallengeCsvParser.ParseTypeName | Assets/Scripts/ChallengeDB/Editor/ChallengeCSVParser.cs:78-88 | Every type's name, in any case and with surrounding whitespace, reads back as that type. |
| ChallengeCsvParser.ParseAnswerTypeName | Assets/Scripts/ChallengeDB/Editor/ChallengeCSVParser.cs:101-111 | Every answer type's name, in any case and with surrounding whitespace, reads back as that answer type. |
| ChallengeCsvParser.ParseCorrectAnswers | Assets/Scripts/ChallengeDB/Editor/ChallengeCSVParser.cs:200-220 | The splitting loop returns exactly `Answers(value)`, and every answer it returns is non-empty, has no bar separator and is its own trim. |
| ChallengeCsvParser.KeepTrimmedClean | Assets/Scripts/ChallengeDB/Editor/ChallengeCSVParser.cs:207-219 | Trimming pieces that hold no separator and dropping the empty ones gives only clean answers, never more than there were pieces. |
| ChallengeCsvParser.KeepTrimmedMembers | Assets/Scripts/ChallengeDB/Editor/ChallengeCSVParser.cs:207-219 | An answer is kept exactly when it is non-empty and the trim of some piece. |
| ChallengeCsvParser.AnswersClean | Assets/Scripts/ChallengeDB/Editor/ChallengeCSVParser.cs:200-220 | Every parsed answer is clean, and whitespace-only input gives no answers. |
| ChallengeCsvParser.AnswersMembers | Assets/Scripts/ChallengeDB/Editor/ChallengeCSVParser.cs:200-220 | For non-blank input, the answers are exactly the non-empty trims of the bar-separated pieces. |
| ChallengeCsvParser.KeepTrimmedIdentity | Assets/Scripts/ChallengeDB/Editor/ChallengeCSVParser.cs:207-219 | Clean pieces are kept as they are, in order. |
| ChallengeCsvParser.AnswersRoundTrip | Assets/Scripts/ChallengeDB/Editor/ChallengeCSVParser.cs:200-220 | Round trip: clean answers joined with the bar separator parse back to the same list. |
| ChallengeCsvParser.JoinNotBlank | Assets/Scripts/ChallengeDB/Editor/ChallengeCSVParser.cs:202-205 | A join whose first answer is clean is not blank, so it takes the splitting path. |
| ChallengeCsvParser.ParseRewardItems | Assets/Scripts/ChallengeDB/Editor/ChallengeCSVParser.cs:175-193 | Blank input and `[]` give an empty list without decoding. A failure happens exactly when the decoder rejects the wrapped text, and its message quotes the input. A non-empty result is the decoder's list. |
| ChallengeCsvParser.ReadNameColumns | Assets/Scripts/ChallengeDB/Editor/ChallengeCSVParser.cs:39-62 | The id and name are set trimmed when given, and the description verbatim when present. The errors are exactly those of the id and name columns. |
| ChallengeCsvParser.ReadCategoryColumns | Assets/Scripts/ChallengeDB/Editor/ChallengeCSVParser.cs:65-88 | Difficulty and type are set from their columns or keep their defaults, and the errors grow by exactly those columns' enum errors. |
| ChallengeCsvParser.ReadQuestionColumns | Assets/Scripts/ChallengeDB/Editor/ChallengeCSVParser.cs:91-111 | The question is set verbatim when given, and the answer type from its column. The errors grow by exactly those columns' errors. |
| ChallengeCsvParser.ReadAnswerColumns | Assets/Scripts/ChallengeDB/Editor/ChallengeCSVParser.cs:114-145 | The answers, hint and rewards are set from their columns, and the errors grow by exactly the answer and reward errors. |
| ChallengeCsvParser.CreateChallengeDataFromRow | Assets/Scripts/ChallengeDB/Editor/ChallengeCSVParser.cs:28-168 | The field-by-field decoding returns exactly `DecodeRow` of the row. |
| ChallengeCsvParser.DecodeRowOutcome | Assets/Scripts/ChallengeDB/Editor/ChallengeCSVParser.cs:148-159 | A row decodes exactly when it has no field error. A failure's message is all the field errors, in field order, joined with newlines. |
| ChallengeCsvParser.NoFieldErrors | Assets/Scripts/ChallengeDB/Editor/ChallengeCSVParser.cs:148-152 | There is no field error exactly when no column block has one. |
| ChallengeCsvParser.NoFieldErrorsValidates | Assets/Scripts/ChallengeDB/Editor/ChallengeCSVParser.cs:153-159 | A record with no field errors always passes `Validate`, so the validation-error branch cannot be reached. |
| ChallengeCsvParser.BlockErrorReported | Assets/Scripts/ChallengeDB/Editor/ChallengeCSVParser.cs:148-152 | Every column block's error is among the reported errors; none is lost. |
| ChallengeCsvParser.MissingIdReported | Assets/Scripts/ChallengeDB/Editor/ChallengeCSVParser.cs:39-46 | A missing or blank id is the first error reported, and the row fails. |
| ChallengeCsvParser.MissingRequiredReported | Assets/Scripts/ChallengeDB/Editor/ChallengeCSVParser.cs:49-125 | A missing or blank name, question or answer list each adds its own error and fails the row. So does a non-blank answer list with no answer in it. |
| ChallengeCsvParser.DecodedFields | Assets/Scripts/ChallengeDB/Editor/ChallengeCSVParser.cs:39-131 | A decoded record has its id and name trimmed and non-empty, the question verbatim, and the description and hint verbatim when present. Its answers are those of the column: at least one, all non-empty and separator-free. |
| ChallengeCsvParser.EnumDefaults | Assets/Scripts/ChallengeDB/ChallengeData.cs:24-36 | An absent or blank enum column keeps the default: Normal, Math, Text. |
| ChallengeCsvParser.DifficultyColumnRead | Assets/Scripts/ChallengeDB/Editor/ChallengeCSVParser.cs:65-75 | A difficulty column naming a difficulty, in any case, sets it. |
| ChallengeCsvParser.TypeColumnRead | Assets/Scripts/ChallengeDB/Editor/ChallengeCSVParser.cs:78-88 | A type column naming a type, in any case, sets it. |
| ChallengeCsvParser.AnswerTypeColumnRead | Assets/Scripts/ChallengeDB/Editor/ChallengeCSVParser.cs:101-111 | An answer-type column naming an answer type, in any case, sets it. |
| ChallengeCsvParser.NamedColumnGiven | Assets/Scripts/ChallengeDB/Editor/ChallengeCSVParser.cs:65-68 | A value that reads as a member name is not blank, so that column counts as given. |
| ChallengeCsvParser.BadEnumReported | Assets/Scripts/ChallengeDB/Editor/ChallengeCSVParser.cs:65-111 | A given enum value that names no member adds an error quoting the raw value, and the row fails. |
| ChallengeCsvParser.RewardColumnEmpty | Assets/Scripts/ChallengeDB/Editor/ChallengeCSVParser.cs:134-145 | An absent, blank or `[]` reward column gives no error and an empty reward list. |
| ChallengeCsvParser.RewardColumnMalformed | Assets/Scripts/ChallengeDB/Editor/ChallengeCSVParser.cs:134-145 | A malformed reward column adds one error, the last reported, after every other field has been checked. The row fails. |
| ChallengeDataModel.HasEmptyAnswer | Assets/Scripts/ChallengeDB/ChallengeData.cs:99-106 | The scan finds an empty answer exactly when one exists. |
| ChallengeDataModel.Validate | Assets/Scripts/ChallengeDB/ChallengeData.cs:72-110 | Valid exactly when id, name and question are non-empty and there is at least one answer, none of them empty. Each message belongs to the first failing check, in source order, and validity carries no message. |
| ChallengeDataModel.DefaultAnswersRejected | Assets/Scripts/ChallengeDB/ChallengeData.cs:39 | The default answer array, one empty entry, fails the empty-answer check. |
| ChallengeDataModel.DefaultInvalid | Assets/Scripts/ChallengeDB/ChallengeData.cs:74-78 | A freshly created record fails on its missing id. |
| ChallengeDataModel.NameContentIgnored | Assets/Scripts/ChallengeDB/ChallengeData.cs:80-84 | Only emptiness of the name is checked; any non-empty name, whitespace included, validates the same. |
| ChallengeDataModel.CreateChallenge | Assets/Scripts/ChallengeDB/ChallengeData.cs:54-67 | The new challenge copies all nine content fields, and starts Locked with no attempts, no completions and no timestamp. |
| ChallengeDataModel.ChallengeAsset.constructor | Assets/Scripts/ChallengeDB/ChallengeData.cs:9-48 | A new asset holds the given record. |
| ChallengeEnums.AllDifficultiesComplete | Assets/Scripts/ChallengeDB/ChallengeEnums.cs:6-13 | The list of difficulties has every difficulty, each once. |
| ChallengeEnums.AllTypesComplete | Assets/Scripts/ChallengeDB/ChallengeEnums.cs:18-25 | The list of challenge types has every type, each once. |
| ChallengeImporter.ExecuteImport | Assets/Scripts/ChallengeDB/Editor/ChallengeCSVImporter.cs:81-248 | A parse failure or zero data rows ends the run with nothing created or saved. Otherwise the outcome, the records added to the catalogue, the new asset paths and the number of saves are exactly those of `RunFrom` over the decoded rows. There is one final save, only on completion. |
| ChallengeImporter.ImportRows | Assets/Scripts/ChallengeDB/Editor/ChallengeCSVImporter.cs:147-223 | The row loop and the final save match `RunFrom`: one catalogue entry and one asset per imported row, intermediate saves per `Checkpoints`, and the final save only when the loop completes. |
| ChallengeImporter.ImportLoop | Assets/Scripts/ChallengeDB/Editor/ChallengeCSVImporter.cs:147-218 | The loop stops with `RunFrom`'s outcome and imports its rows, in order. Each adds one record to the catalogue and one asset path, and intermediate saves follow `Checkpoints`. |
| ChallengeImporter.ImportRow | Assets/Scripts/ChallengeDB/Editor/ChallengeCSVImporter.cs:150-217 | A row either stops the run and changes neither catalogue nor assets, or creates one fresh asset at its path, appends it to the catalogue and saves when its index calls for it. |
| ChallengeImporter.DecodeAll | Assets/Scripts/ChallengeDB/Editor/ChallengeCSVImporter.cs:172 | Each row is decoded with the row decoder, in order. |
| ChallengeImporter.RunStops | Assets/Scripts/ChallengeDB/Editor/ChallengeCSVImporter.cs:154-203 | A cancelled, failing or declined row ends the run there, with nothing imported from it on, and never as completed. |
| ChallengeImporter.RunAdvance | Assets/Scripts/ChallengeDB/Editor/ChallengeCSVImporter.cs:205-210 | An accepted row is imported, and the run continues at the next row with its path now existing. |
| ChallengeImporter.RunCount | Assets/Scripts/ChallengeDB/Editor/ChallengeCSVImporter.cs:147-233 | The count the outcome reports is exactly the number of rows imported before it. |
| ChallengeImporter.RunImportsDecoded | Assets/Scripts/ChallengeDB/Editor/ChallengeCSVImporter.cs:154-182 | Every imported row was not cancelled and decoded successfully to the record imported. |
| ChallengeImporter.RunStopReason | Assets/Scripts/ChallengeDB/Editor/ChallengeCSVImporter.cs:147-218 | Each outcome names its reason: completion after every row, a cancel at the stopping row, that row's decode error, or a declined overwrite carrying the row's id. |
| ChallengeImporter.RunCompletes | Assets/Scripts/ChallengeDB/Editor/ChallengeCSVImporter.cs:147-233 | With no cancel, every overwrite accepted and every row decoding, the run completes and imports every row. |
| ChallengeImporter.CheckpointsCount | Assets/Scripts/ChallengeDB/Editor/ChallengeCSVImporter.cs:213-217 | After n rows the intermediate saves number (n - 1) / 100: one at each index that is a positive multiple of 100. |
| ChallengeImporter.PathsSpelled | Assets/Scripts/ChallengeDB/Editor/ChallengeCSVImporter.cs:185-188 | The folder is output/type/difficulty and the asset path is that folder, then the id with `.asset`. |
| ChallengeImporter.PathsOfMembers | Assets/Scripts/ChallengeDB/Editor/ChallengeCSVImporter.cs:188 | The new asset paths are exactly the paths of the imported records. |
| ChallengeImporter.EnsureFolderExists | Assets/Scripts/ChallengeDB/Editor/ChallengeCSVImporter.cs:253-267 | The folders grow by exactly every slash-prefix of the path of two or more segments; assets and saves are untouched. |
| ChallengeImporter.FoldersAlongMembers | Assets/Scripts/ChallengeDB/Editor/ChallengeCSVImporter.cs:255-266 | A folder is created exactly when it is the join of the first j segments, for some j of at least 2. |
| ChallengeImporter.FullPathCreated | Assets/Scripts/ChallengeDB/Editor/ChallengeCSVImporter.cs:253-267 | A path holding a slash exists itself afterwards. |
| ChallengeImporter.FolderPathHasSeparator | Assets/Scripts/ChallengeDB/Editor/ChallengeCSVImporter.cs:185-186 | Every asset folder path holds a slash, so the folder exists after `EnsureFolderExists`. |
| ChallengeImporter.AssetDatabase.CreateFolder | Assets/Scripts/ChallengeDB/Editor/ChallengeCSVImporter.cs:263 | Adds exactly the folder parent/name. |
| ChallengeImporter.AssetDatabase.CreateAsset | Assets/Scripts/ChallengeDB/Editor/ChallengeCSVImporter.cs:205 | Puts the asset at the path, replacing any asset there; nothing else changes. |
| ChallengeImporter.AssetDatabase.SaveAssets | Assets/Scripts/ChallengeDB/Editor/ChallengeCSVImporter.cs:216 | Counts one save; nothing else changes. |
| ChallengeMaster.ChallengeMasterDatabase.constructor | Assets/Scripts/ChallengeDB/ChallengeMasterDatabase.cs:34 | A new catalogue is empty. |
| ChallengeMaster.ChallengeMasterDatabase.GetAllChallengeData | Assets/Scripts/ChallengeDB/ChallengeMasterDatabase.cs:41-44 | The result holds exactly the non-null entries. |
| ChallengeMaster.ChallengeMasterDatabase.GetChallengeData | Assets/Scripts/ChallengeDB/ChallengeMasterDatabase.cs:49-52 | The first non-null entry with that id, or null exactly when there is none. |
| ChallengeMaster.ChallengeMasterDatabase.GetChallengeDataByType | Assets/Scripts/ChallengeDB/ChallengeMasterDatabase.cs:57-60 | Exactly the non-null entries of that type. |
| ChallengeMaster.ChallengeMasterDatabase.GetChallengeDataByDifficulty | Assets/Scripts/ChallengeDB/ChallengeMasterDatabase.cs:65-68 | Exactly the non-null entries of that difficulty. |
| ChallengeMaster.ChallengeMasterDatabase.DifficultyListFiltersAll | Assets/Scripts/ChallengeDB/ChallengeMasterDatabase.cs:65-68 | The difficulty query keeps list order: it is the non-null list filtered by difficulty. |
| ChallengeMaster.ChallengeMasterDatabase.AddChallengeData | Assets/Scripts/ChallengeDB/ChallengeMasterDatabase.cs:81-101 | Null and a reference already present are ignored; otherwise it is appended. A list without duplicates stays without. |
| ChallengeMaster.ChallengeMasterDatabase.RemoveChallengeData | Assets/Scripts/ChallengeDB/ChallengeMasterDatabase.cs:106-120 | The first occurrence is removed, nothing changes when absent, and in a duplicate-free list the entry is gone. |
| ChallengeMaster.ChallengeMasterDatabase.ClearAllChallenges | Assets/Scripts/ChallengeDB/ChallengeMasterDatabase.cs:125-132 | The list is empty. |
| ChallengeMaster.ChallengeMasterDatabase.CleanupNullEntries | Assets/Scripts/ChallengeDB/ChallengeMasterDatabase.cs:145-160 | Every null is removed, the rest stay in order, and the count returned is the number of nulls removed. |
| ChallengeMaster.ChallengeMasterDatabase.ChallengeCountIsAll | Assets/Scripts/ChallengeDB/ChallengeMasterDatabase.cs:137-140 | The count is the number of non-null entries. |
| ChallengeMaster.ChallengeMasterDatabase.DifficultyCountIsList | Assets/Scripts/ChallengeDB/ChallengeMasterDatabase.cs:165-168 | A difficulty's count is the length of that difficulty's list. |
| ChallengeMaster.ChallengeMasterDatabase.DifficultyCountAt | Assets/Scripts/ChallengeDB/ChallengeMasterDatabase.cs:165-168 | A difficulty's count is how often it occurs among the non-null entries. |
| ChallengeMaster.ChallengeMasterDatabase.DifficultyCountsSum | Assets/Scripts/ChallengeDB/ChallengeMasterDatabase.cs:137-168 | The per-difficulty counts summed over all difficulties equal the total count. |
| ChallengeMaster.ChallengeMasterDatabase.TypeCountsSum | Assets/Scripts/ChallengeDB/ChallengeMasterDatabase.cs:137-176 | The per-type counts summed over all types equal the total count. |
| ChallengeRuntime.Challenge.constructor | Assets/Scripts/ChallengeDB/Challenge.cs:35-62 | The content is copied, and the challenge starts Locked with 0 attempts, 0 completions and an empty timestamp. |
| ChallengeRuntime.Challenge.CheckAnswer | Assets/Scripts/ChallengeDB/Challenge.cs:69-88 | An empty input is never correct. A text answer is correct exactly as `CheckTextAnswer` says, and a number answer as the numeric check says. |
| ChallengeRuntime.Challenge.CheckTextAnswer | Assets/Scripts/ChallengeDB/Challenge.cs:119-131 | Correct exactly when some accepted answer equals the input once both are trimmed, ignoring case. |
| ChallengeRuntime.MatchesAny | Assets/Scripts/ChallengeDB/Challenge.cs:121-130 | The answer loop finds a match exactly when one exists. |
| ChallengeRuntime.Challenge.IncrementAttempt | Assets/Scripts/ChallengeDB/Challenge.cs:136-139 | One more attempt; nothing else changes. |
| ChallengeRuntime.Challenge.RecordCompletion | Assets/Scripts/ChallengeDB/Challenge.cs:144-149 | Status Completed, exactly one more completion, the timestamp set. The status never moves backwards. |
| ChallengeRuntime.Challenge.Unlock | Assets/Scripts/ChallengeDB/Challenge.cs:154-160 | Locked becomes Unlocked; Unlocked and Completed stay; nothing else changes. |
| ChallengeHelper.FilterByDifficulty | Assets/Scripts/ChallengeDB/ChallengeDatabaseHelper.cs:18-28 | A null list gives an empty result; otherwise exactly the entries of that difficulty. |
| ChallengeHelper.FilterByDifficultyKeepsOrder | Assets/Scripts/ChallengeDB/ChallengeDatabaseHelper.cs:18-28 | The filter keeps list order: it filters each part of a list separately, and keeps one entry exactly when it matches. |
| ChallengeHelper.FilterByType | Assets/Scripts/ChallengeDB/ChallengeDatabaseHelper.cs:58-68 | A null list gives an empty result; otherwise exactly the entries of that type. |
| ChallengeHelper.FilterByTypeKeepsOrder | Assets/Scripts/ChallengeDB/ChallengeDatabaseHelper.cs:58-68 | The type filter keeps list order in the same way. |
| ChallengeHelper.FilterByDifficultyAndType | Assets/Scripts/ChallengeDB/ChallengeDatabaseHelper.cs:73-86 | A null list gives an empty result; every entry kept has both the difficulty and the type. |
| ChallengeHelper.DifficultyAndTypeComposes | Assets/Scripts/ChallengeDB/ChallengeDatabaseHelper.cs:18-86 | Filtering by both equals filtering by type after filtering by difficulty. |
| ChallengeHelper.GetRandomChallengeByDifficulty | Assets/Scripts/ChallengeDB/ChallengeDatabaseHelper.cs:36-50 | Null exactly when no entry has that difficulty; otherwise one of those entries. |
| ChallengeHelper.EveryMatchCanBePicked | Assets/Scripts/ChallengeDB/ChallengeDatabaseHelper.cs:36-50 | Every matching entry is a possible pick. |
| ChallengeHelper.FindChallengeById | Assets/Scripts/ChallengeDB/ChallengeDatabaseHelper.cs:123-131 | Null for a null list or an empty id; otherwise the first challenge with that id, or null exactly when none has it. |
| ChallengeHelper.WithStatus | Assets/Scripts/ChallengeDB/ChallengeDatabaseHelper.cs:138-145 | Exactly the challenges in that status. |
| ChallengeHelper.GetChallengesByStatus | Assets/Scripts/ChallengeDB/ChallengeDatabaseHelper.cs:136-146 | A null list gives an empty result; otherwise exactly the challenges in that status. |
| ChallengeHelper.CountStatusIsLength | Assets/Scripts/ChallengeDB/ChallengeDatabaseHelper.cs:136-159 | Counting a status equals the length of that status's list. |
| ChallengeHelper.CompletedCountIsList | Assets/Scripts/ChallengeDB/ChallengeDatabaseHelper.cs:136-159 | The completed count equals the length of `GetChallengesByStatus(Completed)`. |
| ChallengeHelper.CompletedOfAtMostCompleted | Assets/Scripts/ChallengeDB/ChallengeDatabaseHelper.cs:151-175 | Completed challenges of one difficulty are never more than all completed ones. |
| ChallengeHelper.CompletedByDifficultyAtMostCompleted | Assets/Scripts/ChallengeDB/ChallengeDatabaseHelper.cs:151-175 | The by-difficulty completed count never exceeds the completed count. |
| ChallengeHelper.StatusCountsPartition | Assets/Scripts/ChallengeDB/ChallengeDatabaseHelper.cs:187-190 | Completed + unlocked + locked = total. |
| ChallengeHelper.TotalAttemptsNonNegative | Assets/Scripts/ChallengeDB/ChallengeDatabaseHelper.cs:191 | Non-negative attempt counters give a non-negative total. |
| ChallengeHelper.GetStatistics | Assets/Scripts/ChallengeDB/ChallengeDatabaseHelper.cs:180-200 | No figures for a null or empty list. Otherwise the total is the length, completed is the completed count, and completed + unlocked + locked is the total. |
| ChallengeProgress.ChallengeProgressManager.constructor | Assets/Scripts/ChallengePage/ChallengeProgressManager.cs:33-38 | Nothing solved and no counter yet. |
| ChallengeProgress.ChallengeProgressManager.Awake | Assets/Scripts/ChallengePage/ChallengeProgressManager.cs:40-56 | Every difficulty gets a counter at 0 and the solved set is kept; with nothing solved, the counters sum to the set size. |
| ChallengeProgress.ChallengeProgressManager.GetSolvedCount | Assets/Scripts/ChallengePage/ChallengeProgressManager.cs:98-101 | 0 for a difficulty without a counter. |
| ChallengeProgress.ChallengeProgressManager.SolvedCountsSum | Assets/Scripts/ChallengePage/ChallengeProgressManager.cs:88-110 | In a consistent tracker, the solved counts of the five difficulties add up to the total solved count. |
| ChallengeProgress.ChallengeProgressManager.MarkAsSolved | Assets/Scripts/ChallengePage/ChallengeProgressManager.cs:63-81 | An empty or already-solved id changes nothing, so marking twice is idempotent. A new id is added and its difficulty's counter, if any, goes up by one. The invariant "counters sum to the set size" is kept. |
| ChallengeProgress.ChallengeProgressManager.GetUnsolvedChallenges | Assets/Scripts/ChallengePage/ChallengeProgressManager.cs:117-126 | A null list gives an empty result; otherwise exactly the entries whose id is not solved. |
| ChallengeProgress.ChallengeProgressManager.NothingSolvedKeepsAll | Assets/Scripts/ChallengePage/ChallengeProgressManager.cs:117-126 | With nothing solved, every entry is unsolved, in order. |
| ChallengeProgress.ChallengeProgressManager.GetUnsolvedChallengesByDifficulty | Assets/Scripts/ChallengePage/ChallengeProgressManager.cs:133-136 | Exactly the unsolved non-null catalogue entries of that difficulty: every one returned is such an entry, and every such entry is returned. |
| ChallengeProgress.ChallengeProgressManager.Reset | Assets/Scripts/ChallengePage/ChallengeProgressManager.cs:142-152 | The set is empty; every counter is 0 and no key is lost; the invariant holds again. |
| ChallengeProgress.ChallengeProgressManager.ResetByDifficulty | Assets/Scripts/ChallengePage/ChallengeProgressManager.cs:158-174 | Exactly the ids of that difficulty's catalogue entries are removed. The counter falls by the number actually removed, and the invariant is kept. |
| ChallengeProgress.ChallengeProgressManager.ForgetAll | Assets/Scripts/ChallengePage/ChallengeProgressManager.cs:162-171 | The loop removes the ids of the listed entries and lowers the counter once per id removed. |
| ChallengeProgress.ChallengeProgressManager.Forget | Assets/Scripts/ChallengePage/ChallengeProgressManager.cs:164-169 | One id removed, and the counter lowered only when it was there. |
| GameStore.GameDatabase.constructor | Assets/Scripts/Database/GameDatabase.cs:35-41 | No money, no items, no facilities. |
| GameStore.GameDatabase.AddMoney | Assets/Scripts/Database/GameDatabase.cs:70-74 | Money grows by the amount; items and facilities unchanged. |
| GameStore.GameDatabase.SpendMoney | Assets/Scripts/Database/GameDatabase.cs:79-92 | Succeeds exactly when money covers the amount, then subtracts it and leaves money non-negative; on failure money is unchanged. |
| GameStore.GameDatabase.SetMoney | Assets/Scripts/Database/GameDatabase.cs:97-100 | Money is the amount. |
| GameStore.GameDatabase.GetAllItems | Assets/Scripts/Database/GameDatabase.cs:109-112 | The inventory list as it is. |
| GameStore.GameDatabase.GetItem | Assets/Scripts/Database/GameDatabase.cs:161-164 | The first entry with that id, or null exactly when there is none. |
| GameStore.GameDatabase.GetItemQuantity | Assets/Scripts/Database/GameDatabase.cs:169-173 | The entry's quantity, 0 for an absent id. |
| GameStore.GameDatabase.GetItemsByType | Assets/Scripts/Database/GameDatabase.cs:178-181 | Exactly the entries of that type. |
| GameStore.GameDatabase.AddItem | Assets/Scripts/Database/GameDatabase.cs:117-131 | An existing entry's quantity grows. Otherwise one new entry is appended. Ids stay distinct. |
| GameStore.AddedQuantities | Assets/Scripts/Database/GameDatabase.cs:117-131 | After adding, the id's quantity has grown by the amount, every other id's is unchanged, and ids stay distinct. |
| GameStore.AddedPresent | Assets/Scripts/Database/GameDatabase.cs:117-131 | After adding, the id has an entry. |
| GameStore.GameDatabase.RemoveItem | Assets/Scripts/Database/GameDatabase.cs:136-156 | Succeeds exactly when the entry holds at least the amount. It then lowers the quantity and drops the entry once it reaches 0 or less. On failure nothing changes. |
| GameStore.TakenQuantities | Assets/Scripts/Database/GameDatabase.cs:136-156 | A removal lowers exactly that id's quantity and keeps ids distinct; an impossible one changes nothing. |
| GameStore.AddThenTake | Assets/Scripts/Database/GameDatabase.cs:117-156 | Removing what was just added always succeeds and restores every quantity. |
| GameStore.GameDatabase.CanAfford | Assets/Scripts/Database/GameDatabase.cs:294-317 | The loop decides `Affordable`: enough money (when the cost is positive) and enough of every listed item. |
| GameStore.GameDatabase.CanAffordFacilityUnlock | Assets/Scripts/Database/GameDatabase.cs:294-317 | `Affordable` for the unlock costs. |
| GameStore.GameDatabase.CanAffordFacilityUpgrade | Assets/Scripts/Database/GameDatabase.cs:391-414 | `Affordable` for the upgrade costs. |
| GameStore.GameDatabase.PayCosts | Assets/Scripts/Database/GameDatabase.cs:259-269 | A positive money cost that money covers is subtracted, and every cost line is taken from the inventory; facilities unchanged. |
| GameStore.PaymentQuantities | Assets/Scripts/Database/GameDatabase.cs:259-269 | With distinct cost ids and enough of each, paying lowers each listed item by its quantity and leaves every other item alone. |
| GameStore.GameDatabase.GetAllFacilities | Assets/Scripts/Database/GameDatabase.cs:190-193 | The facility list as it is. |
| GameStore.GameDatabase.GetFacility | Assets/Scripts/Database/GameDatabase.cs:419-422 | The first facility with that id, or null exactly when there is none. |
| GameStore.GameDatabase.HasFacilityFirst | Assets/Scripts/Database/GameDatabase.cs:428-432 | True exactly when the first facility with that id is unlocked. |
| GameStore.GameDatabase.GetUnlockedFacilities | Assets/Scripts/Database/GameDatabase.cs:437-440 | Exactly the unlocked facilities. |
| GameStore.GameDatabase.GetFacilitiesByType | Assets/Scripts/Database/GameDatabase.cs:445-448 | Exactly the facilities of that type. |
| GameStore.UnlockedOf | Assets/Scripts/Database/GameDatabase.cs:437-440 | Exactly the unlocked facilities of a list. |
| GameStore.GameDatabase.AddFacility | Assets/Scripts/Database/GameDatabase.cs:198-211 | Nothing happens for an existing id. Otherwise one new facility is appended with the given fields and an invalid default production configuration. |
| GameStore.GameDatabase.UnlockFacility | Assets/Scripts/Database/GameDatabase.cs:216-230 | Succeeds exactly when the id is found. Only that facility changes, and only its unlock flag. |
| GameStore.GameDatabase.UpgradeFacility | Assets/Scripts/Database/GameDatabase.cs:322-336 | Succeeds exactly when the facility is found and unlocked. Only its level changes, by one. |
| GameStore.GameDatabase.CheckUnlock | Assets/Scripts/Database/GameDatabase.cs:237-257 | The checks, in source order, decide `UnlockPermitted`: master data present, not already unlocked, affordable. |
| GameStore.GameDatabase.CheckUpgrade | Assets/Scripts/Database/GameDatabase.cs:343-368 | The checks, in source order, decide `UpgradePermitted`: master data present, found and unlocked, below the maximum level, affordable. |
| GameStore.GameDatabase.UnlockFacilityWithCost | Assets/Scripts/Database/GameDatabase.cs:235-289 | Succeeds exactly when permitted; a failure changes nothing. Success pays the costs and leaves the facility unlocked. An existing facility keeps its level and takes the master configuration; a new one is appended at level 1. |
| GameStore.GameDatabase.UpgradeFacilityWithCost | Assets/Scripts/Database/GameDatabase.cs:341-386 | Succeeds exactly when permitted; a failure changes nothing. Success pays the costs and raises only that facility's level, by one, so it stays within the maximum. |
| GameStore.GameDatabase.ClearAllData | Assets/Scripts/Database/GameDatabase.cs:457-463 | No money, no items, no facilities. |
| GameMaster.MasterDatabase.constructor | Assets/Scripts/MasterDatabase.cs:33-36 | Both catalogues are empty. |
| GameMaster.MasterDatabase.GetAllItemData | Assets/Scripts/MasterDatabase.cs:43-46 | The list as a value: later changes to the catalogue do not reach it. |
| GameMaster.MasterDatabase.GetItemData | Assets/Scripts/MasterDatabase.cs:51-54 | The first entry with that id, or null exactly when there is none. |
| GameMaster.MasterDatabase.GetItemDataByType | Assets/Scripts/MasterDatabase.cs:59-62 | Exactly the entries of that type. |
| GameMaster.MasterDatabase.AddItemData | Assets/Scripts/MasterDatabase.cs:67-81 | A reference already present is ignored; otherwise it is appended. No duplicate appears, and the facility catalogue is unchanged. |
| GameMaster.MasterDatabase.RemoveItemData | Assets/Scripts/MasterDatabase.cs:86-95 | The first occurrence is removed; nothing changes when absent. |
| GameMaster.MasterDatabase.RemoveItemDataById | Assets/Scripts/MasterDatabase.cs:100-107 | The first entry with that id is removed; nothing changes when none has it. |
| GameMaster.MasterDatabase.GetAllFacilityData | Assets/Scripts/MasterDatabase.cs:116-119 | The list as a value. |
| GameMaster.MasterDatabase.GetFacilityData | Assets/Scripts/MasterDatabase.cs:124-127 | The first entry with that id, or null exactly when there is none. |
| GameMaster.MasterDatabase.GetFacilityDataByType | Assets/Scripts/MasterDatabase.cs:132-135 | Exactly the entries of that type. |
| GameMaster.MasterDatabase.AddFacilityData | Assets/Scripts/MasterDatabase.cs:140-154 | A reference already present is ignored; otherwise it is appended. |
| GameMaster.MasterDatabase.RemoveFacilityData | Assets/Scripts/MasterDatabase.cs:159-168 | The first occurrence is removed; nothing changes when absent. |
| GameMaster.MasterDatabase.RemoveFacilityDataById | Assets/Scripts/MasterDatabase.cs:173-180 | The first entry with that id is removed; nothing changes when none has it. |
| GameItems.Item.constructor | Assets/Scripts/Item/Item.cs:17-25 | The fields are the arguments. |
| GameItems.ItemData.constructor | Assets/Scripts/ItemData.cs:10-20 | The identity fields are set, with stack size 99, price 0 and not consumable. |
| GameItems.ItemData.CreateItem | Assets/Scripts/ItemData.cs:25-30 | A new entry with this data's id, name, description and type, holding the quantity. |
| FacilityProduction.ProductionConfig.constructor | Assets/Scripts/FacilityProduction.cs:24-39 | Defaults: type None, no money, an empty item list, interval 10, auto production on. |
| FacilityProduction.ProductionConfig.ProducesMoney | Assets/Scripts/FacilityProduction.cs:56-59 | True exactly for Money and Both. |
| FacilityProduction.ProductionConfig.ProducesItems | Assets/Scripts/FacilityProduction.cs:64-67 | True exactly for Item and Both. |
| FacilityProduction.ProductionConfig.IsValid | Assets/Scripts/FacilityProduction.cs:72-84 | True exactly when production is on, the type is not None, a money producer has a positive amount and an item producer a non-empty list. |
| FacilityProduction.GetItemId | Assets/Scripts/FacilityProduction.cs:105-110 | The item data's id when set, otherwise the entry's own id, which is null (`None`) in an entry built from master data alone. |
| FacilityProduction.ProductionState.constructor | Assets/Scripts/FacilityProduction.cs:117-132 | The record starts at time 0 with no production and not paused. |
| FacilityProduction.ProductionState.Reset | Assets/Scripts/FacilityProduction.cs:137-144 | Time, count and money are 0, no item totals, not paused. |
| FacilityProduction.ProductionState.RecordProduction | Assets/Scripts/FacilityProduction.cs:149-168 | One more production, the money added, and the items added into the totals per id; a null map leaves the totals alone. |
| FacilityProduction.AddTotalsAt | Assets/Scripts/FacilityProduction.cs:154-167 | Adding items creates exactly the missing ids and adds per id. |
| FacilityProduction.AddTotalsNone | Assets/Scripts/FacilityProduction.cs:154-167 | Recording no items leaves the totals as they are. |
| FacilityProduction.AddTotalsTwice | Assets/Scripts/FacilityProduction.cs:154-167 | Recording a, then b, is recording their per-id sum. |
| Facilities.Facility.constructor | Assets/Scripts/Facility.cs:21-42 | The arguments are copied. A given configuration is shared, a null one replaced by a fresh invalid default, and the production record is always fresh. |
| Facilities.Facility.UpdateProductionConfig | Assets/Scripts/Facility.cs:47-50 | The facility uses the given configuration. |
| Facilities.Facility.SetProductionType | Assets/Scripts/Facility.cs:55-58 | Only the type changes. |
| Facilities.Facility.SetMoneyAmount | Assets/Scripts/Facility.cs:63-66 | Only the money amount changes. |
| Facilities.Facility.SetProductionInterval | Assets/Scripts/Facility.cs:71-74 | Only the interval changes. |
| Facilities.Facility.SetAutoProductionEnabled | Assets/Scripts/Facility.cs:113-116 | Only the auto-production flag changes. |
| Facilities.Facility.AddItemProduction | Assets/Scripts/Facility.cs:79-91 | Exactly one entry naming the item by id is appended, to a new list if there was none before; other settings unchanged. |
| Facilities.Facility.AddItemProductionFromData | Assets/Scripts/Facility.cs:96-108 | Exactly one entry naming the item through its master data, with its own id left null, is appended, to a new list if there was none before. |
| Facilities.Facility.ResetProductionState | Assets/Scripts/Facility.cs:121-124 | The same effect as the record's Reset. |
| Facilities.FacilityData.constructor | Assets/Scripts/Facility/FacilityData.cs:11-31 | The master fields are the arguments. |
| Facilities.FacilityData.CreateFacility | Assets/Scripts/Facility/FacilityData.cs:40-43 | A new facility with this data's identity and type, sharing its production configuration, with a fresh record. |
| ProductionControl.ProduceFacilityResources | Assets/Scripts/Facility/FacilityProductionController.cs:130-176 | Fails exactly when it produces items and the item list is null or some entry's id is null; then nothing is recorded. Otherwise it records one production: `moneyAmount` when producing money, otherwise 0, and the item map built in list order. Only the production record is touched, never the player store. |
| ProductionControl.ProducedItemsKeys | Assets/Scripts/Facility/FacilityProductionController.cs:150-167 | With no null id, an id is in the produced map exactly when some entry names it. |
| ProductionControl.ProducedItemsLast | Assets/Scripts/Facility/FacilityProductionController.cs:150-167 | Each id maps to the quantity of its last entry, so a later duplicate overwrites an earlier one. |
| ProductionControl.ValidFailsOnlyOnNullId | Assets/Scripts/FacilityProduction.cs:72-84 | Settings that pass `IsValid` have a list whenever they produce items, so they make a production fail exactly when some entry's id is null. |
| ProductionControl.NullDataEntryFails | Assets/Scripts/Facility.cs:96-108 | An entry added from null master data makes any item-producing settings fail, valid or not. |
| ProductionControl.FacilityProductionController.constructor | Assets/Scripts/Facility/FacilityProductionController.cs:15 | No facility is managed. |
| ProductionControl.FacilityProductionController.RegisterFacility | Assets/Scripts/Facility/FacilityProductionController.cs:61-82 | Null and managed facilities are ignored: the list and a managed facility's record stay as they were. Otherwise the facility is appended and its last production time becomes now. |
| ProductionControl.FacilityProductionController.UnregisterFacility | Assets/Scripts/Facility/FacilityProductionController.cs:87-98 | A managed facility is removed, and nothing changes otherwise; afterwards it is not managed. |
| ProductionControl.FacilityProductionController.UpdateFacilityProduction | Assets/Scripts/Facility/FacilityProductionController.cs:103-125 | The pass stops at the first facility that is due and whose production fails, as the exception does. Before that point, each record changes exactly when its facility is due (unlocked, valid, not paused, the interval elapsed) and then records one production at now. From that point on, no record changes. `completed` says the pass got through the whole list. |
| ProductionControl.FacilityProductionController.ProduceIfDue | Assets/Scripts/Facility/FacilityProductionController.cs:106-124 | One step of the pass: only the record at k changes, and only when due and its production does not fail. It aborts exactly when due with failing settings. |
| ProductionControl.FacilityProductionController.SetFacilityProductionPaused | Assets/Scripts/Facility/FacilityProductionController.cs:181-193 | Only the first managed facility with that id gets the pause flag; the others are unchanged. |
| ProductionControl.FacilityProductionController.SetAllProductionPaused | Assets/Scripts/Facility/FacilityProductionController.cs:198-209 | Every managed record gets the pause flag, and only that. |
| ProductionControl.FacilityProductionController.ManualProduceResources | Assets/Scripts/Facility/FacilityProductionController.cs:214-222 | Only the first managed facility with that id produces, and only when it is unlocked and its settings do not fail. |
| ProductionControl.FacilityProductionController.GetFacilityProductionState | Assets/Scripts/Facility/FacilityProductionController.cs:227-231 | The record of the first managed facility with that id, or null exactly when there is none. |
| ProductionControl.FacilityProductionController.ResetAllProductionStates | Assets/Scripts/Facility/FacilityProductionController.cs:256-267 | Every managed record is back at its initial value. |
| Timing.Started | Assets/Scripts/Persistent/Managers/TimerManager.cs:158-167 | Running afterwards, with the time kept. A running timer is unchanged, and a stopped one starts unpaused. |
| Timing.Stopped | Assets/Scripts/Persistent/Managers/TimerManager.cs:172-181 | Stopped afterwards, with the time kept. A stopped timer is unchanged, and a running one stops unpaused. |
| Timing.Toggled | Assets/Scripts/Persistent/Managers/TimerManager.cs:186-194 | Only a running timer changes, and only its pause flag flips. |
| Timing.Reset | Assets/Scripts/Persistent/Managers/TimerManager.cs:199-205 | Time 0 and unpaused; the running flag is kept. |
| Timing.Updated | Assets/Scripts/Persistent/Managers/TimerManager.cs:120-153 | Time moves only when running and not paused. A countdown reaching its limit stops there. |
| Timing.Finished | Assets/Scripts/Persistent/Managers/TimerManager.cs:210-216 | Stopped, with the time at the limit; the pause flag is untouched. |
| Timing.OperationsKeepValid | Assets/Scripts/Persistent/Managers/TimerManager.cs:131-216 | Every operation keeps "paused implies running". |
| Timing.FinishedPausedInvalid | Assets/Scripts/Persistent/Managers/TimerManager.cs:210-216 | Finishing a paused timer would break that invariant; the update gate is why it never does. |
| Timing.ToggleTwice | Assets/Scripts/Persistent/Managers/TimerManager.cs:186-194 | Toggling twice restores the timer. |
| Timing.StopStartResumes | Assets/Scripts/Persistent/Managers/TimerManager.cs:158-181 | A stopped timer keeps its time through updates, and starting it again resumes from that time. |
| Timing.CountdownBounded | Assets/Scripts/Persistent/Managers/TimerManager.cs:141-153 | A countdown within its limit never passes it, and one that reaches the limit has stopped. |
| Timing.IntervalCheck | Assets/Scripts/Persistent/Managers/TimerManager.cs:276-284 | Due exactly when at least the interval has elapsed; then the last check time becomes now, and otherwise it is kept. |
| Timing.IntervalFiresOnce | Assets/Scripts/Persistent/Managers/TimerManager.cs:276-284 | With a positive interval, a check that fired does not fire again at the same instant. |
| Timing.TimerManager.constructor | Assets/Scripts/Persistent/Managers/TimerManager.cs:26-41 | The settings are the arguments and the timer is initialised. |
| Timing.TimerManager.InitializeTimer | Assets/Scripts/Persistent/Managers/TimerManager.cs:131-136 | Not running, not paused, time 0; settings kept. |
| Timing.TimerManager.StartTimer | Assets/Scripts/Persistent/Managers/TimerManager.cs:158-167 | The new state is `Started` of the old one. |
| Timing.TimerManager.StopTimer | Assets/Scripts/Persistent/Managers/TimerManager.cs:172-181 | The new state is `Stopped` of the old one. |
| Timing.TimerManager.TogglePause | Assets/Scripts/Persistent/Managers/TimerManager.cs:186-194 | The new state is `Toggled` of the old one. |
| Timing.TimerManager.ResetTimer | Assets/Scripts/Persistent/Managers/TimerManager.cs:199-205 | The new state is `Reset` of the old one. |
| Timing.TimerManager.Update | Assets/Scripts/Persistent/Managers/TimerManager.cs:120-126 | The new state is `Updated` of the old one, so only a running, unpaused timer moves. |
| Timing.TimerManager.UpdateTimer | Assets/Scripts/Persistent/Managers/TimerManager.cs:141-153 | Time advances by the frame time, and a countdown at its limit finishes. |
| Timing.TimerManager.FinishTimer | Assets/Scripts/Persistent/Managers/TimerManager.cs:210-216 | The new state is `Finished` of the old one. |
| Timing.TimerManager.CheckInterval | Assets/Scripts/Persistent/Managers/TimerManager.cs:276-284 | Due exactly when at least the interval has elapsed. The reference parameter becomes now when due and is kept otherwise. |

## Left out

- Editor windows, dialogs, the progress bar, the stopwatch, status messages, `Repaint`, `Refresh`, `Selection` and `SetDirty` are left out. So are the null checks on the CSV asset and the catalogue before import. All of these are editor plumbing with no effect on the imported data.
- The importer's outer `catch` (ChallengeCSVImporter.cs:239-247) is left out: no modelled step throws once parsing has succeeded.
- The asset database calls (`CreateFolder`, `CreateAsset`, `SaveAssets`) always succeed in the model. Unity's `CreateFolder` fails when the parent folder is missing or the name is empty. That happens for an output folder that starts with a missing folder, contains `//` or ends with `/`. On such inputs `FullPathCreated` holds only because of this abstraction.
- The operator's cancel and overwrite answers are functions of the row index, not dialogs. `File.Exists` is membership in the asset map.
- ChallengeImporter.ExecuteImport: does not state the folders created or that the new assets are fresh objects; `ImportRow` and `EnsureFolderExists` state those per step.
- ChallengeRuntime.Challenge.CheckTextAnswer: an accepted answer that is null makes the source throw NullReferenceException at `Trim` (Challenge.cs:123). The model has no null answers: a null entry is `""`, which matches an input that trims to empty. The default answer list, one null entry (ChallengeData.cs:39), is the only way such an entry arises. Records from the CSV decoder never hold it, and `Validate` rejects it.
- ChallengeRuntime.Challenge.CheckAnswer: inherits that gap on the text path. The empty-input check at Challenge.cs:69-74 is modelled, but a whitespace-only input against a null accepted answer returns true here where the source throws.
- Challenge.CheckAnswer's number path (`float.TryParse`, `Mathf.Approximately`) is the parameter `numericCheck`, because it is floating point.
- Ignore-case comparison folds only ASCII letters. Whitespace is the Unicode space set written out in `Text.IsWhiteSpace`. Culture-specific folding is not modelled.
- `Enum.TryParse` also accepts numbers and comma lists; only member names, case-insensitively, are modelled.
- `JsonUtility.FromJson` is the parameter `fromJson`: its result is malformed, or a possibly-null list.
- The `catch` around a row decode (ChallengeCSVParser.cs:163-167) is left out: the modelled decoding never throws.
- ChallengeMaster.ChallengeMasterDatabase.RemoveChallengeData: for a null argument the first null entry is removed, as in the source, or nothing changes if none is listed. The NullReferenceException the source then raises while logging the name is not modelled.
- `Random.Range` is the parameter `roll`, a natural number reduced modulo the number of matches.
- Null entries in the lists given to the helper class and the progress tracker are excluded by precondition; the catalogue itself models them.
- Singletons (`MasterDatabase.Instance`, `ChallengeMasterDatabase.Instance`) are passed in as parameters.
- ChallengeProgress.ChallengeProgressManager.ResetByDifficulty: lowers the counter by the number of ids removed, as the source does. The counter can therefore go negative when solved ids were counted under another difficulty. The sum invariant is stated only for a consistent tracker.
- `Debug.Log` output, events and the text of `GetStatistics`, `ShowAllProductionStats`, `ShowStats`, `PrintStatus` and `GetDebugInfo` are left out. Only the figures `GetStatistics` reports are modelled.
- `AddItemData(null)` and `AddFacilityData(null)` are left out, and `UpdateProductionConfig` takes a non-null configuration: these argument types are non-null.
- ProductionControl.ProduceFacilityResources: the NullReferenceException over a null item list and the ArgumentNullException at an entry with a null id (FacilityProductionController.cs:160) are a result `completed == false` that records nothing. The abort they cause in the per-frame pass is `UpdateFacilityProduction`'s `completed == false`. The exception types and whatever the engine logs are not modelled.
- The duplicated cost blocks of the two paid operations are one `PayCosts` and one `CanAfford`. The logging-only master lookups (GameDatabase.cs:309, 406) are left out.
- GameStore.PaymentQuantities: proved for cost lines with distinct item ids. The general case is the definition `TakenAll`, which `PayCosts` states.
- C# `int` overflow of money and quantities is not modelled; integers are unbounded.
- ProductionControl.FacilityProductionController.RegisterFacility: requires that a new facility's production record is not already managed. The source's constructors guarantee this, since each facility makes its own record.
- `Time.time` and `Time.deltaTime` are `real` parameters, and float arithmetic is exact real arithmetic.
- The timer's `Awake`/`Start` autoStart wiring, `SetInitialTime`, `SetTimerMode`, `AddTime`, `RemainingTime`, `TimeRatio` and the `GetFormattedTime` methods are left out: they are floating-point display helpers and engine wiring.
- Sprite and icon fields, `productionAmountIncreasePerLevel`, reward tables, drop rates, `RollDrop`, `GetRandomRewards` and `GiveRewards` are left out: they are presentation and randomness.
- The DateTime timestamp passed to `RecordCompletion` is a string parameter.
