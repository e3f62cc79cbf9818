/** The challenge master data: the field values of a ChallengeData asset
    with their initialisers, its validation, and the factory that builds a
    runtime Challenge from it.  The asset itself, whose identity the master
    catalogue compares, is a ChallengeAsset object holding those values. */
module ChallengeDataModel {
  import opened ChallengeEnums
  import opened ChallengeRuntime

  /** The fields of ChallengeData.  Unset (null) strings are "", the null
      entries of an answer array are "", and a null answer array is the
      empty one: validation treats each pair alike. */
  datatype ChallengeData = ChallengeData(
    challengeId: string,
    challengeName: string,
    description: string,
    difficulty: ChallengeDifficulty,
    challengeType: ChallengeType,
    questionText: string,
    answerType: AnswerType,
    correctAnswers: seq<string>,
    hint: string,
    rewardItems: seq<RewardItem>)

  /** A freshly created asset: difficulty Normal, type Math, answer type
      Text, an answer array of length one holding null, an empty reward
      table. */
  const Default: ChallengeData :=
    ChallengeData("", "", "", Normal, Math, "", Text, [""], "", [])

  /** A ChallengeData asset: one object per created asset. */
  class ChallengeAsset {
    const data: ChallengeData

    constructor(d: ChallengeData)
      ensures data == d
    {
      data := d;
    }
  }

  const NoIdMessage: string := "Challenge IDが設定されていません。"
  const NoNameMessage: string := "Challenge名が設定されていません。"
  const NoQuestionMessage: string := "問題文が設定されていません。"
  const NoAnswersMessage: string := "正解パターンが設定されていません。"
  const EmptyAnswerMessage: string := "空の正解パターンが含まれています。"

  /** The outcome of Validate: Valid stands for true with a null message. */
  datatype Verdict = Valid | Invalid(message: string)

  /** The answers are scanned in order for an empty one. */
  function HasEmptyAnswer(answers: seq<string>): (r: bool)
    ensures r <==> exists i :: 0 <= i < |answers| && answers[i] == ""
  {
    if |answers| == 0 then false
    else if answers[0] == "" then true
    else
      var r := HasEmptyAnswer(answers[1..]);
      assert forall i :: 1 <= i < |answers| ==> answers[i] == answers[1..][i - 1];
      r
  }

  /** Validate: the checks run in a fixed order and the message is the one
      of the first check that fails; only emptiness is checked. */
  function Validate(d: ChallengeData): (v: Verdict)
    ensures v.Valid? <==>
              d.challengeId != "" && d.challengeName != "" && d.questionText != "" &&
              |d.correctAnswers| > 0 && forall i :: 0 <= i < |d.correctAnswers| ==> d.correctAnswers[i] != ""
    ensures v == Invalid(NoIdMessage) <==> d.challengeId == ""
    ensures v == Invalid(NoNameMessage) <==> d.challengeId != "" && d.challengeName == ""
    ensures v == Invalid(NoQuestionMessage) <==>
              d.challengeId != "" && d.challengeName != "" && d.questionText == ""
    ensures v == Invalid(NoAnswersMessage) <==>
              d.challengeId != "" && d.challengeName != "" && d.questionText != "" && |d.correctAnswers| == 0
    ensures v.Invalid? ==> v.message in [NoIdMessage, NoNameMessage, NoQuestionMessage, NoAnswersMessage, EmptyAnswerMessage]
  {
    if d.challengeId == "" then Invalid(NoIdMessage)
    else if d.challengeName == "" then Invalid(NoNameMessage)
    else if d.questionText == "" then Invalid(NoQuestionMessage)
    else if |d.correctAnswers| == 0 then Invalid(NoAnswersMessage)
    else if HasEmptyAnswer(d.correctAnswers) then Invalid(EmptyAnswerMessage)
    else Valid
  }

  /** The default answer array (one null entry) is rejected by the
      empty-pattern check once the earlier checks pass. */
  lemma DefaultAnswersRejected(d: ChallengeData)
    requires d.challengeId != "" && d.challengeName != "" && d.questionText != ""
    requires d.correctAnswers == Default.correctAnswers
    ensures Validate(d) == Invalid(EmptyAnswerMessage)
  {
    assert d.correctAnswers[0] == "";
  }

  /** A fresh asset fails validation on its missing id. */
  lemma DefaultInvalid()
    ensures Validate(Default) == Invalid(NoIdMessage)
  {
  }

  /** Only emptiness of the name is checked: any two non-empty names, a
      whitespace-only one among them, validate alike. */
  lemma NameContentIgnored(d: ChallengeData, name: string)
    requires d.challengeName != "" && name != ""
    ensures Validate(d.(challengeName := name)) == Validate(d)
  {
  }

  /** CreateChallenge: a new runtime challenge holding the nine content
      fields verbatim, Locked and with no attempts or completions. */
  method CreateChallenge(d: ChallengeData) returns (c: Challenge)
    ensures fresh(c)
    ensures c.challengeId == d.challengeId && c.challengeName == d.challengeName
    ensures c.description == d.description && c.difficulty == d.difficulty
    ensures c.challengeType == d.challengeType && c.questionText == d.questionText
    ensures c.answerType == d.answerType && c.correctAnswers == d.correctAnswers
    ensures c.hint == d.hint
    ensures c.status == Locked && c.attemptCount == 0 && c.completedCount == 0
    ensures c.lastCompletedTime == "" && c.Valid()
  {
    c := new Challenge(d.challengeId, d.challengeName, d.description, d.difficulty,
                       d.challengeType, d.questionText, d.answerType, d.correctAnswers, d.hint);
  }
}
