/** Decoding one CSV record (header name to value) into challenge master
    data.  Every field is checked in a fixed order and every error is
    collected; the record decodes only when there is none, and the
    decoded data is then validated. */
module ChallengeCsvParser {
  import opened Wrappers
  import opened Text
  import opened Lists
  import opened ChallengeEnums
  import opened ChallengeDataModel
  import CsvSimpleParser

  type Row = CsvSimpleParser.Record

  // ---------------------------------------------------------------------
  // Enumerations

  /** ParseEnum: the trimmed value matched against the member names,
      ignoring case; the first matching member in declaration order. */
  function ParseEnum<T>(value: string, members: seq<T>, name: T -> string): Option<T> {
    FirstNamed(Trim(value), members, name)
  }

  /** The first member whose name equals key, ignoring case. */
  function FirstNamed<T>(key: string, members: seq<T>, name: T -> string): Option<T> {
    if |members| == 0 then None
    else if EqualsIgnoreCase(key, name(members[0])) then Some(members[0])
    else FirstNamed(key, members[1..], name)
  }

  function ParseDifficulty(value: string): Option<ChallengeDifficulty> {
    ParseEnum(value, AllDifficulties, DifficultyName)
  }

  function ParseType(value: string): Option<ChallengeType> {
    ParseEnum(value, AllTypes, TypeName)
  }

  function ParseAnswerType(value: string): Option<AnswerType> {
    ParseEnum(value, AllAnswerTypes, AnswerTypeName)
  }

  /** ParseEnum succeeds exactly when some member's name matches, and
      then returns a member whose name matches. */
  lemma ParseEnumSpec<T>(value: string, members: seq<T>, name: T -> string)
    ensures var r := ParseEnum(value, members, name);
            (r.Some? ==> r.value in members && EqualsIgnoreCase(Trim(value), name(r.value))) &&
            (r.None? <==> forall i :: 0 <= i < |members| ==> !EqualsIgnoreCase(Trim(value), name(members[i])))
  {
    FirstNamedSpec(Trim(value), members, name);
  }

  lemma {:induction false} FirstNamedSpec<T>(key: string, members: seq<T>, name: T -> string)
    ensures var r := FirstNamed(key, members, name);
            (r.Some? ==> r.value in members && EqualsIgnoreCase(key, name(r.value))) &&
            (r.None? <==> forall i :: 0 <= i < |members| ==> !EqualsIgnoreCase(key, name(members[i])))
  {
    if |members| > 0 && !EqualsIgnoreCase(key, name(members[0])) {
      FirstNamedSpec(key, members[1..], name);
      assert forall i :: 1 <= i < |members| ==> members[i] == members[1..][i - 1];
    }
  }

  /** Values that read alike once trimmed and upper-cased parse alike. */
  lemma ParseEnumIgnoresCase<T>(a: string, b: string, members: seq<T>, name: T -> string)
    requires EqualsIgnoreCase(Trim(a), Trim(b))
    ensures ParseEnum(a, members, name) == ParseEnum(b, members, name)
  {
    FirstNamedIgnoresCase(Trim(a), Trim(b), members, name);
  }

  lemma {:induction false} FirstNamedIgnoresCase<T>(a: string, b: string, members: seq<T>, name: T -> string)
    requires EqualsIgnoreCase(a, b)
    ensures FirstNamed(a, members, name) == FirstNamed(b, members, name)
  {
    if |members| > 0 {
      FirstNamedIgnoresCase(a, b, members[1..], name);
    }
  }

  /** The difficulty names differ even ignoring case. */
  lemma DifficultyNamesDistinct(a: ChallengeDifficulty, b: ChallengeDifficulty)
    requires a != b
    ensures !EqualsIgnoreCase(DifficultyName(a), DifficultyName(b))
  {
    var x := UpperOrdinal(DifficultyName(a));
    var y := UpperOrdinal(DifficultyName(b));
    if |x| == |y| == 4 {
      assert x[0] != y[0];
    } else if |x| == |y| {
      assert x[4] != y[4];
    }
  }

  /** The type names differ even ignoring case. */
  lemma TypeNamesDistinct(a: ChallengeType, b: ChallengeType)
    requires a != b
    ensures !EqualsIgnoreCase(TypeName(a), TypeName(b))
  {
    var x := UpperOrdinal(TypeName(a));
    var y := UpperOrdinal(TypeName(b));
    if |x| == |y| {
      assert x[0] != y[0];
    }
  }

  /** Each difficulty's own name, in any case and with surrounding
      whitespace, parses to that difficulty. */
  lemma {:induction false} ParseDifficultyName(value: string, d: ChallengeDifficulty)
    requires EqualsIgnoreCase(Trim(value), DifficultyName(d))
    ensures ParseDifficulty(value) == Some(d)
  {
    ParseEnumSpec(value, AllDifficulties, DifficultyName);
    AllDifficultiesComplete();
    match d
    case VeryEasy => assert AllDifficulties[0] == d;
    case Easy => assert AllDifficulties[1] == d;
    case Normal => assert AllDifficulties[2] == d;
    case Hard => assert AllDifficulties[3] == d;
    case VeryHard => assert AllDifficulties[4] == d;
    var r := ParseDifficulty(value);
    assert r.Some?;
    if r.value != d {
      DifficultyNamesDistinct(r.value, d);
    }
  }

  /** Each challenge type's own name, in any case and with surrounding
      whitespace, parses to that type. */
  lemma {:induction false} ParseTypeName(value: string, t: ChallengeType)
    requires EqualsIgnoreCase(Trim(value), TypeName(t))
    ensures ParseType(value) == Some(t)
  {
    ParseEnumSpec(value, AllTypes, TypeName);
    AllTypesComplete();
    match t
    case Math => assert AllTypes[0] == t;
    case Logic => assert AllTypes[1] == t;
    case Memory => assert AllTypes[2] == t;
    case Quiz => assert AllTypes[3] == t;
    case Other => assert AllTypes[4] == t;
    var r := ParseType(value);
    assert r.Some?;
    if r.value != t {
      TypeNamesDistinct(r.value, t);
    }
  }

  /** Each answer type's own name, in any case and with surrounding
      whitespace, parses to that answer type. */
  lemma {:induction false} ParseAnswerTypeName(value: string, a: AnswerType)
    requires EqualsIgnoreCase(Trim(value), AnswerTypeName(a))
    ensures ParseAnswerType(value) == Some(a)
  {
    ParseEnumSpec(value, AllAnswerTypes, AnswerTypeName);
    assert AllAnswerTypes[0] == Number && AllAnswerTypes[1] == Text;
    assert |UpperOrdinal("Number")| != |UpperOrdinal("Text")|;
  }

  // ---------------------------------------------------------------------
  // Answers

  /** The trimmed pieces that are not empty, in order. */
  function KeepTrimmed(pieces: seq<string>): seq<string>
  {
    if |pieces| == 0 then []
    else
      var t := Trim(pieces[|pieces| - 1]);
      KeepTrimmed(pieces[..|pieces| - 1]) + (if t == "" then [] else [t])
  }

  /** What ParseCorrectAnswers returns: nothing for a blank value,
      otherwise the trimmed non-empty pieces between the '|' separators. */
  function Answers(value: string): seq<string>
  {
    if IsBlank(value) then [] else KeepTrimmed(Split(value, '|'))
  }

  /** A clean answer: not empty, no separator, its own trim. */
  predicate CleanAnswer(a: string) {
    a != "" && '|' !in a && Trim(a) == a
  }

  /** Each kept piece is a clean answer when the pieces hold no '|'. */
  lemma {:induction false} KeepTrimmedClean(pieces: seq<string>)
    requires forall i :: 0 <= i < |pieces| ==> '|' !in pieces[i]
    ensures |KeepTrimmed(pieces)| <= |pieces|
    ensures forall i :: 0 <= i < |KeepTrimmed(pieces)| ==> CleanAnswer(KeepTrimmed(pieces)[i])
  {
    if |pieces| > 0 {
      var init := pieces[..|pieces| - 1];
      var last := pieces[|pieces| - 1];
      assert forall i :: 0 <= i < |init| ==> init[i] == pieces[i];
      KeepTrimmedClean(init);
      TrimIdempotent(last);
      if '|' in Trim(last) { TrimChars(last, '|'); }
    }
  }

  /** The kept answers are exactly the non-empty trims of the pieces. */
  lemma {:induction false} KeepTrimmedMembers(pieces: seq<string>, a: string)
    ensures a in KeepTrimmed(pieces) <==> a != "" && IsTrimOfPiece(pieces, a)
  {
    if |pieces| > 0 {
      var init := pieces[..|pieces| - 1];
      var t := Trim(pieces[|pieces| - 1]);
      assert KeepTrimmed(pieces) == KeepTrimmed(init) + (if t == "" then [] else [t]);
      KeepTrimmedMembers(init, a);
      if a in KeepTrimmed(init) {
        var j :| 0 <= j < |init| && Trim(init[j]) == a;
        assert pieces[j] == init[j];
      }
      if a != "" && IsTrimOfPiece(pieces, a) && a != t {
        var i :| 0 <= i < |pieces| && Trim(pieces[i]) == a;
        assert i < |init| && init[i] == pieces[i];
      }
    }
  }

  /** a is the trim of one of the pieces. */
  predicate IsTrimOfPiece(pieces: seq<string>, a: string) {
    exists i :: 0 <= i < |pieces| && Trim(pieces[i]) == a
  }

  /** Every answer is clean, there are no more answers than pieces, and a
      blank value has none. */
  lemma {:induction false} AnswersClean(value: string)
    ensures forall i :: 0 <= i < |Answers(value)| ==> CleanAnswer(Answers(value)[i])
    ensures IsBlank(value) ==> Answers(value) == []
  {
    if !IsBlank(value) {
      KeepTrimmedClean(Split(value, '|'));
    }
  }

  /** ParseCorrectAnswers: splits on '|', trims every piece and keeps the
      non-empty ones in order. */
  method ParseCorrectAnswers(value: string) returns (answers: seq<string>)
    ensures answers == Answers(value)
    ensures forall i :: 0 <= i < |answers| ==> CleanAnswer(answers[i])
  {
    AnswersClean(value);
    if IsBlank(value) {
      return [];
    }
    var pieces := Split(value, '|');
    var result: seq<string> := [];
    var i := 0;
    while i < |pieces|
      invariant 0 <= i <= |pieces|
      invariant result == KeepTrimmed(pieces[..i])
    {
      var trimmed := Trim(pieces[i]);
      if trimmed != "" {
        result := result + [trimmed];
      }
      assert pieces[..i + 1][..i] == pieces[..i];
      i := i + 1;
    }
    assert pieces[..i] == pieces;
    answers := result;
  }

  /** Clean pieces are all kept. */
  lemma {:induction false} KeepTrimmedIdentity(xs: seq<string>)
    requires forall i :: 0 <= i < |xs| ==> CleanAnswer(xs[i])
    ensures KeepTrimmed(xs) == xs
  {
    if |xs| > 0 {
      var init := xs[..|xs| - 1];
      assert forall i :: 0 <= i < |init| ==> init[i] == xs[i];
      KeepTrimmedIdentity(init);
      assert xs == init + [xs[|xs| - 1]];
    }
  }

  /** Joining a list of clean answers with '|' and parsing it again gives
      back the same list. */
  lemma {:induction false} AnswersRoundTrip(xs: seq<string>)
    requires forall i :: 0 <= i < |xs| ==> CleanAnswer(xs[i])
    ensures Answers(Join('|', xs)) == xs
  {
    if |xs| > 0 {
      var s := Join('|', xs);
      JoinNotBlank(xs);
      assert Answers(s) == KeepTrimmed(Split(s, '|'));
      SplitJoin(xs, '|');
      KeepTrimmedIdentity(xs);
    }
  }

  /** A join whose first part is a clean answer is not blank. */
  lemma {:induction false} JoinNotBlank(xs: seq<string>)
    requires |xs| > 0 && CleanAnswer(xs[0])
    ensures !IsBlank(Join('|', xs))
  {
    var s := Join('|', xs);
    var x := xs[0];
    assert s[0] == x[0] by {
      if |xs| > 1 { assert s == x + (['|'] + Join('|', xs[1..])); }
    }
    TrimFacts(x);
  }

  /** Every answer ParseCorrectAnswers returns is one of the trimmed
      pieces of the value; only blank pieces are dropped. */
  lemma {:induction false} AnswersMembers(value: string, a: string)
    requires !IsBlank(value)
    ensures a in Answers(value) <==> a != "" && IsTrimOfPiece(Split(value, '|'), a)
  {
    var pieces := Split(value, '|');
    assert Answers(value) == KeepTrimmed(pieces);
    KeepTrimmedMembers(pieces, a);
  }

  // ---------------------------------------------------------------------
  // Reward items

  /** The object the JSON decoder is given: {"items":<json>}. */
  function WrapItems(json: string): string {
    "{\"items\":" + json + "}"
  }

  /** The result of JsonUtility.FromJson on the wrapped text: a thrown
      exception, or a wrapper whose item list may be null. */
  datatype JsonOutcome = Malformed | Decoded(items: Option<seq<RewardItem>>)

  /** ParseRewardItems: a blank value or [] is the empty list without
      decoding; otherwise the decoder is applied to the wrapped text, a
      null list is empty, and a decoder failure is an error naming the
      input. */
  function ParseRewardItems(json: string, fromJson: string -> JsonOutcome): (r: Result<seq<RewardItem>, string>)
    ensures IsBlank(json) || Trim(json) == "[]" ==> r == Success([])
    ensures r.Failure? <==> !IsBlank(json) && Trim(json) != "[]" && fromJson(WrapItems(json)).Malformed?
    ensures r.Failure? ==> r.error == "Invalid RewardItems JSON: " + json
    ensures r.Success? && r.value != [] ==> fromJson(WrapItems(json)) == Decoded(Some(r.value))
  {
    if IsBlank(json) || Trim(json) == "[]" then Success([])
    else
      match fromJson(WrapItems(json))
      case Malformed => Failure("Invalid RewardItems JSON: " + json)
      case Decoded(items) => Success(items.GetOr([]))
  }

  // ---------------------------------------------------------------------
  // One record

  const IdEmpty: string := "challengeIdが空です"
  const NameEmpty: string := "challengeNameが空です"
  const QuestionEmpty: string := "questionTextが空です"
  const AnswersEmpty: string := "correctAnswersが空です"
  const AnswersEmptyArray: string := "correctAnswersが空の配列です"
  const ValidationPrefix: string := "バリデーションエラー:\n"

  function BadDifficulty(raw: string): string { "不正なdifficulty値: " + raw }
  function BadType(raw: string): string { "不正なtype値: " + raw }
  function BadAnswerType(raw: string): string { "不正なanswerType値: " + raw }
  function RewardJsonError(message: string): string { "rewardItemsのJSON解析エラー: " + message }

  /** TryGetValue succeeds and the value is not null or whitespace. */
  predicate Given(row: Row, key: string) {
    key in row && !IsBlank(row[key])
  }

  /** A required column: an error when it is missing or blank. */
  function RequiredErrors(row: Row, key: string, message: string): seq<string> {
    if Given(row, key) then [] else [message]
  }

  /** An enumeration column: an error quoting the raw value when it is
      given and names no member. */
  function EnumErrors<T>(row: Row, key: string, parse: string -> Option<T>, message: string -> string): seq<string> {
    if Given(row, key) && parse(row[key]).None? then [message(row[key])] else []
  }

  /** The enumeration value: the parsed member when the column is given
      and names one, otherwise the field initialiser. */
  function EnumField<T>(row: Row, key: string, parse: string -> Option<T>, default: T): T {
    if Given(row, key) && parse(row[key]).Some? then parse(row[key]).value else default
  }

  function AnswerErrors(row: Row): seq<string> {
    if !Given(row, "correctAnswers") then [AnswersEmpty]
    else if Answers(row["correctAnswers"]) == [] then [AnswersEmptyArray]
    else []
  }

  function RewardErrors(row: Row, fromJson: string -> JsonOutcome): seq<string> {
    if Given(row, "rewardItems") && ParseRewardItems(row["rewardItems"], fromJson).Failure?
    then [RewardJsonError(ParseRewardItems(row["rewardItems"], fromJson).error)]
    else []
  }

  /** The errors of each column block, in field order. */
  function NameErrors(row: Row): seq<string> {
    RequiredErrors(row, "challengeId", IdEmpty) + RequiredErrors(row, "challengeName", NameEmpty)
  }

  function CategoryErrors(row: Row): seq<string> {
    EnumErrors(row, "difficulty", ParseDifficulty, BadDifficulty) + EnumErrors(row, "type", ParseType, BadType)
  }

  function QuestionErrors(row: Row): seq<string> {
    RequiredErrors(row, "questionText", QuestionEmpty) + EnumErrors(row, "answerType", ParseAnswerType, BadAnswerType)
  }

  function AnswerColumnErrors(row: Row, fromJson: string -> JsonOutcome): seq<string> {
    AnswerErrors(row) + RewardErrors(row, fromJson)
  }

  /** All field errors, in field order. */
  function FieldErrors(row: Row, fromJson: string -> JsonOutcome): seq<string> {
    NameErrors(row) + CategoryErrors(row) + QuestionErrors(row) + AnswerColumnErrors(row, fromJson)
  }

  /** The value each field holds once its column is read: the column's
      value when the code assigns it, otherwise init (what the field held
      before). */
  function IdField(row: Row, init: string): string {
    if Given(row, "challengeId") then Trim(row["challengeId"]) else init
  }

  function NameField(row: Row, init: string): string {
    if Given(row, "challengeName") then Trim(row["challengeName"]) else init
  }

  function DescriptionField(row: Row, init: string): string {
    if "description" in row then row["description"] else init
  }

  function QuestionField(row: Row, init: string): string {
    if Given(row, "questionText") then row["questionText"] else init
  }

  function AnswersField(row: Row, init: seq<string>): seq<string> {
    if Given(row, "correctAnswers") then Answers(row["correctAnswers"]) else init
  }

  function HintField(row: Row, init: string): string {
    if "hint" in row then row["hint"] else init
  }

  function RewardField(row: Row, fromJson: string -> JsonOutcome, init: seq<RewardItem>): seq<RewardItem> {
    if Given(row, "rewardItems") && ParseRewardItems(row["rewardItems"], fromJson).Success?
    then ParseRewardItems(row["rewardItems"], fromJson).value
    else init
  }

  /** The field values assigned while the record is read, starting from a
      fresh asset. */
  function DecodedData(row: Row, fromJson: string -> JsonOutcome): ChallengeData {
    ChallengeData(
      IdField(row, Default.challengeId), NameField(row, Default.challengeName),
      DescriptionField(row, Default.description),
      EnumField(row, "difficulty", ParseDifficulty, Default.difficulty),
      EnumField(row, "type", ParseType, Default.challengeType),
      QuestionField(row, Default.questionText),
      EnumField(row, "answerType", ParseAnswerType, Default.answerType),
      AnswersField(row, Default.correctAnswers), HintField(row, Default.hint),
      RewardField(row, fromJson, Default.rewardItems))
  }

  /** What CreateChallengeDataFromRow returns: the data, or the error text
      (the field errors joined by "\n", or the validation message). */
  function DecodeRow(row: Row, fromJson: string -> JsonOutcome): Result<ChallengeData, string> {
    var errors := FieldErrors(row, fromJson);
    if errors != [] then Failure(Join('\n', errors))
    else
      var data := DecodedData(row, fromJson);
      match Validate(data)
      case Invalid(message) => Failure(ValidationPrefix + message)
      case Valid => Success(data)
  }

  // The column blocks of CreateChallengeDataFromRow, in its order; each
  // assigns its fields of data and appends its errors.

  /** challengeId and challengeName are required and trimmed; description
      is copied when the column exists. */
  method ReadNameColumns(row: Row, data: ChallengeData)
    returns (data': ChallengeData, errors: seq<string>)
    ensures data' == data.(challengeId := IdField(row, data.challengeId),
                           challengeName := NameField(row, data.challengeName),
                           description := DescriptionField(row, data.description))
    ensures errors == NameErrors(row)
  {
    data', errors := data, [];

    if !("challengeId" in row) || IsBlank(row["challengeId"]) {
      errors := errors + [IdEmpty];
    } else {
      data' := data'.(challengeId := Trim(row["challengeId"]));
    }
    assert errors == RequiredErrors(row, "challengeId", IdEmpty);

    if !("challengeName" in row) || IsBlank(row["challengeName"]) {
      errors := errors + [NameEmpty];
    } else {
      data' := data'.(challengeName := Trim(row["challengeName"]));
    }

    if "description" in row {
      data' := data'.(description := row["description"]);
    }
  }

  /** difficulty and type are optional; a given value is parsed, and one
      that names no member is an error quoting it. */
  method ReadCategoryColumns(row: Row, data: ChallengeData, errors: seq<string>)
    returns (data': ChallengeData, errors': seq<string>)
    ensures data' == data.(difficulty := EnumField(row, "difficulty", ParseDifficulty, data.difficulty),
                           challengeType := EnumField(row, "type", ParseType, data.challengeType))
    ensures errors' == errors + CategoryErrors(row)
  {
    data', errors' := data, errors;

    if "difficulty" in row && !IsBlank(row["difficulty"]) {
      var parsed := ParseDifficulty(row["difficulty"]);
      if parsed.None? {
        errors' := errors' + [BadDifficulty(row["difficulty"])];
      } else {
        data' := data'.(difficulty := parsed.value);
      }
    }
    assert errors' == errors + EnumErrors(row, "difficulty", ParseDifficulty, BadDifficulty);

    if "type" in row && !IsBlank(row["type"]) {
      var parsed := ParseType(row["type"]);
      if parsed.None? {
        errors' := errors' + [BadType(row["type"])];
      } else {
        data' := data'.(challengeType := parsed.value);
      }
    }
  }

  /** questionText is required and kept as written; answerType is an
      optional enumeration column. */
  method ReadQuestionColumns(row: Row, data: ChallengeData, errors: seq<string>)
    returns (data': ChallengeData, errors': seq<string>)
    ensures data' == data.(questionText := QuestionField(row, data.questionText),
                           answerType := EnumField(row, "answerType", ParseAnswerType, data.answerType))
    ensures errors' == errors + QuestionErrors(row)
  {
    data', errors' := data, errors;

    if !("questionText" in row) || IsBlank(row["questionText"]) {
      errors' := errors' + [QuestionEmpty];
    } else {
      data' := data'.(questionText := row["questionText"]);
    }
    assert errors' == errors + RequiredErrors(row, "questionText", QuestionEmpty);

    if "answerType" in row && !IsBlank(row["answerType"]) {
      var parsed := ParseAnswerType(row["answerType"]);
      if parsed.None? {
        errors' := errors' + [BadAnswerType(row["answerType"])];
      } else {
        data' := data'.(answerType := parsed.value);
      }
    }
  }

  /** correctAnswers is required and must yield at least one answer; hint
      is copied when the column exists; rewardItems is decoded when given,
      a decoder failure being an error. */
  method ReadAnswerColumns(row: Row, fromJson: string -> JsonOutcome, data: ChallengeData, errors: seq<string>)
    returns (data': ChallengeData, errors': seq<string>)
    ensures data' == data.(correctAnswers := AnswersField(row, data.correctAnswers),
                           hint := HintField(row, data.hint),
                           rewardItems := RewardField(row, fromJson, data.rewardItems))
    ensures errors' == errors + AnswerColumnErrors(row, fromJson)
  {
    data', errors' := data, errors;

    if !("correctAnswers" in row) || IsBlank(row["correctAnswers"]) {
      errors' := errors' + [AnswersEmpty];
    } else {
      var answers := ParseCorrectAnswers(row["correctAnswers"]);
      data' := data'.(correctAnswers := answers);
      if |answers| == 0 {
        errors' := errors' + [AnswersEmptyArray];
      }
    }
    assert errors' == errors + AnswerErrors(row);

    if "hint" in row {
      data' := data'.(hint := row["hint"]);
    }

    if "rewardItems" in row && !IsBlank(row["rewardItems"]) {
      var items := ParseRewardItems(row["rewardItems"], fromJson);
      match items
      case Success(list) => data' := data'.(rewardItems := list);
      case Failure(message) => errors' := errors' + [RewardJsonError(message)];
    }
    assert errors' == errors + AnswerErrors(row) + RewardErrors(row, fromJson);
    AppendAssoc(errors, AnswerErrors(row), RewardErrors(row, fromJson));
  }

  /** CreateChallengeDataFromRow: fills a fresh ChallengeData field by
      field, collecting the errors; fromJson is the JSON decoder. */
  method CreateChallengeDataFromRow(row: Row, fromJson: string -> JsonOutcome)
    returns (result: Result<ChallengeData, string>)
    ensures result == DecodeRow(row, fromJson)
  {
    var data, errors := ReadNameColumns(row, Default);
    data, errors := ReadCategoryColumns(row, data, errors);
    data, errors := ReadQuestionColumns(row, data, errors);
    data, errors := ReadAnswerColumns(row, fromJson, data, errors);
    assert errors == FieldErrors(row, fromJson);
    assert data == DecodedData(row, fromJson);
    if |errors| > 0 {
      return Failure(Join('\n', errors));
    }
    match Validate(data)
    case Invalid(message) =>
      return Failure(ValidationPrefix + message);
    case Valid =>
      return Success(data);
  }

  // ---------------------------------------------------------------------
  // Properties of the decoding

  /** A join is empty only when every part is. */
  lemma EmptyConcat(a: seq<string>, b: seq<string>)
    ensures a + b == [] <==> a == [] && b == []
  {
    if a + b == [] {
      assert |a + b| == |a| + |b|;
    }
  }

  /** The field errors are empty exactly when every column block's are. */
  lemma NoFieldErrors(row: Row, fromJson: string -> JsonOutcome)
    ensures FieldErrors(row, fromJson) == [] <==>
              NameErrors(row) == [] && CategoryErrors(row) == [] &&
              QuestionErrors(row) == [] && AnswerColumnErrors(row, fromJson) == []
  {
    var n, c, q, a := NameErrors(row), CategoryErrors(row), QuestionErrors(row), AnswerColumnErrors(row, fromJson);
    EmptyConcat(n + c + q, a);
    EmptyConcat(n + c, q);
    EmptyConcat(n, c);
  }

  /** With no field error the three required text fields are non-empty
      and the answers are a non-empty list of non-empty strings, so the
      decoded data passes Validate. */
  lemma NoFieldErrorsValidates(row: Row, fromJson: string -> JsonOutcome)
    requires FieldErrors(row, fromJson) == []
    ensures Validate(DecodedData(row, fromJson)) == Valid
  {
    NoFieldErrors(row, fromJson);
    EmptyConcat(RequiredErrors(row, "challengeId", IdEmpty), RequiredErrors(row, "challengeName", NameEmpty));
    EmptyConcat(RequiredErrors(row, "questionText", QuestionEmpty),
                EnumErrors(row, "answerType", ParseAnswerType, BadAnswerType));
    EmptyConcat(AnswerErrors(row), RewardErrors(row, fromJson));
    TrimFacts(row["challengeId"]);
    TrimFacts(row["challengeName"]);
    AnswersClean(row["correctAnswers"]);
    var d := DecodedData(row, fromJson);
    assert d.challengeId != "" && d.challengeName != "";
    assert d.questionText != "" by {
      if row["questionText"] == "" { assert IsBlank(row["questionText"]); }
    }
    assert d.correctAnswers == Answers(row["correctAnswers"]);
  }

  /** A record decodes exactly when it has no field error: the validation
      branch is never taken.  A failure then carries the field errors
      joined by "\n", and a success carries the decoded fields. */
  lemma DecodeRowOutcome(row: Row, fromJson: string -> JsonOutcome)
    ensures DecodeRow(row, fromJson).Success? <==> FieldErrors(row, fromJson) == []
    ensures DecodeRow(row, fromJson).Failure? ==>
              DecodeRow(row, fromJson).error == Join('\n', FieldErrors(row, fromJson))
    ensures DecodeRow(row, fromJson).Success? ==> DecodeRow(row, fromJson).value == DecodedData(row, fromJson)
  {
    if FieldErrors(row, fromJson) == [] {
      NoFieldErrorsValidates(row, fromJson);
    }
  }

  /** An error of a column block is among the field errors. */
  lemma BlockErrorReported(row: Row, fromJson: string -> JsonOutcome, message: string)
    requires message in NameErrors(row) || message in CategoryErrors(row) ||
             message in QuestionErrors(row) || message in AnswerColumnErrors(row, fromJson)
    ensures message in FieldErrors(row, fromJson)
  {
  }

  /** A missing or blank challengeId is the first error reported. */
  lemma MissingIdReported(row: Row, fromJson: string -> JsonOutcome)
    requires !Given(row, "challengeId")
    ensures FieldErrors(row, fromJson)[0] == IdEmpty
    ensures DecodeRow(row, fromJson).Failure?
  {
    var names := NameErrors(row);
    assert names[0] == IdEmpty;
    var upToCategory := names + CategoryErrors(row);
    assert upToCategory[0] == IdEmpty;
    var upToQuestion := upToCategory + QuestionErrors(row);
    assert upToQuestion[0] == IdEmpty;
    assert FieldErrors(row, fromJson) == upToQuestion + AnswerColumnErrors(row, fromJson);
  }

  /** Each other missing or blank required column, and an answer column
      with no answer in it, is reported and the record does not decode. */
  lemma MissingRequiredReported(row: Row, fromJson: string -> JsonOutcome)
    ensures !Given(row, "challengeName") ==>
              NameEmpty in FieldErrors(row, fromJson) && DecodeRow(row, fromJson).Failure?
    ensures !Given(row, "questionText") ==>
              QuestionEmpty in FieldErrors(row, fromJson) && DecodeRow(row, fromJson).Failure?
    ensures !Given(row, "correctAnswers") ==>
              AnswersEmpty in FieldErrors(row, fromJson) && DecodeRow(row, fromJson).Failure?
    ensures Given(row, "correctAnswers") && Answers(row["correctAnswers"]) == [] ==>
              AnswersEmptyArray in FieldErrors(row, fromJson) && DecodeRow(row, fromJson).Failure?
  {
    if !Given(row, "challengeName") {
      assert NameEmpty in NameErrors(row);
      BlockErrorReported(row, fromJson, NameEmpty);
    }
    if !Given(row, "questionText") {
      assert QuestionEmpty in QuestionErrors(row);
      BlockErrorReported(row, fromJson, QuestionEmpty);
    }
    if !Given(row, "correctAnswers") {
      assert AnswersEmpty in AnswerColumnErrors(row, fromJson);
      BlockErrorReported(row, fromJson, AnswersEmpty);
    }
    if Given(row, "correctAnswers") && Answers(row["correctAnswers"]) == [] {
      assert AnswersEmptyArray in AnswerColumnErrors(row, fromJson);
      BlockErrorReported(row, fromJson, AnswersEmptyArray);
    }
  }

  /** A record that decodes carries the trimmed id and name, the question,
      description and hint verbatim, and a non-empty list of clean
      answers parsed from its correctAnswers column. */
  lemma DecodedFields(row: Row, fromJson: string -> JsonOutcome)
    requires DecodeRow(row, fromJson).Success?
    ensures var d := DecodeRow(row, fromJson).value;
            && Given(row, "challengeId") && d.challengeId == Trim(row["challengeId"]) && d.challengeId != ""
            && Given(row, "challengeName") && d.challengeName == Trim(row["challengeName"]) && d.challengeName != ""
            && Given(row, "questionText") && d.questionText == row["questionText"]
            && d.description == (if "description" in row then row["description"] else "")
            && d.hint == (if "hint" in row then row["hint"] else "")
            && Given(row, "correctAnswers") && d.correctAnswers == Answers(row["correctAnswers"])
            && |d.correctAnswers| > 0
            && forall i :: 0 <= i < |d.correctAnswers| ==>
                 d.correctAnswers[i] != "" && '|' !in d.correctAnswers[i]
  {
    DecodeRowOutcome(row, fromJson);
    if !Given(row, "challengeId") {
      MissingIdReported(row, fromJson);
    }
    MissingRequiredReported(row, fromJson);
    NoFieldErrorsValidates(row, fromJson);
    AnswersClean(row["correctAnswers"]);
  }

  /** An absent or blank enumeration column keeps the field initialiser:
      Normal, Math and Text. */
  lemma EnumDefaults(row: Row, fromJson: string -> JsonOutcome)
    ensures !Given(row, "difficulty") ==> DecodedData(row, fromJson).difficulty == Normal
    ensures !Given(row, "type") ==> DecodedData(row, fromJson).challengeType == Math
    ensures !Given(row, "answerType") ==> DecodedData(row, fromJson).answerType == Text
  {
  }

  /** A column holding a member's name, in any case and with surrounding
      whitespace, sets that member. */
  lemma DifficultyColumnRead(row: Row, fromJson: string -> JsonOutcome, d: ChallengeDifficulty)
    requires "difficulty" in row && EqualsIgnoreCase(Trim(row["difficulty"]), DifficultyName(d))
    ensures DecodedData(row, fromJson).difficulty == d
  {
    ParseDifficultyName(row["difficulty"], d);
    NamedColumnGiven(row["difficulty"], DifficultyName(d));
  }

  lemma TypeColumnRead(row: Row, fromJson: string -> JsonOutcome, t: ChallengeType)
    requires "type" in row && EqualsIgnoreCase(Trim(row["type"]), TypeName(t))
    ensures DecodedData(row, fromJson).challengeType == t
  {
    ParseTypeName(row["type"], t);
    NamedColumnGiven(row["type"], TypeName(t));
  }

  lemma AnswerTypeColumnRead(row: Row, fromJson: string -> JsonOutcome, a: AnswerType)
    requires "answerType" in row && EqualsIgnoreCase(Trim(row["answerType"]), AnswerTypeName(a))
    ensures DecodedData(row, fromJson).answerType == a
  {
    ParseAnswerTypeName(row["answerType"], a);
    NamedColumnGiven(row["answerType"], AnswerTypeName(a));
  }

  /** A value that reads as a non-empty name is not blank. */
  lemma NamedColumnGiven(value: string, name: string)
    requires name != "" && EqualsIgnoreCase(Trim(value), name)
    ensures !IsBlank(value)
  {
    TrimFacts(value);
    assert |UpperOrdinal(Trim(value))| == |UpperOrdinal(name)|;
  }

  /** A given enumeration value that names no member is an error quoting
      the raw value, and the record does not decode. */
  lemma BadEnumReported(row: Row, fromJson: string -> JsonOutcome)
    ensures Given(row, "difficulty") && ParseDifficulty(row["difficulty"]).None? ==>
              BadDifficulty(row["difficulty"]) in FieldErrors(row, fromJson) && DecodeRow(row, fromJson).Failure?
    ensures Given(row, "type") && ParseType(row["type"]).None? ==>
              BadType(row["type"]) in FieldErrors(row, fromJson) && DecodeRow(row, fromJson).Failure?
    ensures Given(row, "answerType") && ParseAnswerType(row["answerType"]).None? ==>
              BadAnswerType(row["answerType"]) in FieldErrors(row, fromJson) && DecodeRow(row, fromJson).Failure?
  {
    if Given(row, "difficulty") && ParseDifficulty(row["difficulty"]).None? {
      assert BadDifficulty(row["difficulty"]) in CategoryErrors(row);
      BlockErrorReported(row, fromJson, BadDifficulty(row["difficulty"]));
    }
    if Given(row, "type") && ParseType(row["type"]).None? {
      assert BadType(row["type"]) in CategoryErrors(row);
      BlockErrorReported(row, fromJson, BadType(row["type"]));
    }
    if Given(row, "answerType") && ParseAnswerType(row["answerType"]).None? {
      assert BadAnswerType(row["answerType"]) in QuestionErrors(row);
      BlockErrorReported(row, fromJson, BadAnswerType(row["answerType"]));
    }
  }

  /** An absent, blank or [] rewardItems column gives an empty reward list
      and no error. */
  lemma RewardColumnEmpty(row: Row, fromJson: string -> JsonOutcome)
    requires !Given(row, "rewardItems") || Trim(row["rewardItems"]) == "[]"
    ensures RewardErrors(row, fromJson) == [] && DecodedData(row, fromJson).rewardItems == []
  {
  }

  /** A rewardItems value the decoder rejects is the last error reported,
      naming the raw value, and the record does not decode. */
  lemma RewardColumnMalformed(row: Row, fromJson: string -> JsonOutcome)
    requires Given(row, "rewardItems") && Trim(row["rewardItems"]) != "[]"
    requires fromJson(WrapItems(row["rewardItems"])).Malformed?
    ensures var e := FieldErrors(row, fromJson);
            |e| > 0 && e[|e| - 1] == RewardJsonError("Invalid RewardItems JSON: " + row["rewardItems"])
    ensures DecodeRow(row, fromJson).Failure?
  {
  }
}
