/** The runtime challenge: fixed content copied from the master data, and
    the player's progress on it (status, attempt and completion counters,
    completion timestamp), which its methods update in place. */
module ChallengeRuntime {
  import opened Text
  import opened ChallengeEnums

  /** The order in which a challenge's status only ever advances. */
  function StatusRank(s: ChallengeStatus): nat {
    match s
    case Locked => 0
    case Unlocked => 1
    case Completed => 2
  }

  /** Some accepted answer equals the user's answer once both are trimmed,
      ignoring case; the answers are tried in order. */
  function MatchesAny(userAnswer: string, answers: seq<string>): (r: bool)
    ensures r <==> exists i :: 0 <= i < |answers| && EqualsIgnoreCase(Trim(userAnswer), Trim(answers[i]))
  {
    if |answers| == 0 then false
    else if EqualsIgnoreCase(Trim(userAnswer), Trim(answers[0])) then true
    else
      var r := MatchesAny(userAnswer, answers[1..]);
      assert forall i :: 1 <= i < |answers| ==> answers[i] == answers[1..][i - 1];
      r
  }

  class Challenge {
    const challengeId: string
    const challengeName: string
    const description: string
    const difficulty: ChallengeDifficulty
    const challengeType: ChallengeType
    const questionText: string
    const answerType: AnswerType
    const correctAnswers: seq<string>
    const hint: string

    var status: ChallengeStatus
    var attemptCount: int
    var completedCount: int
    var lastCompletedTime: string

    /** The progress counters are never negative, and a challenge that was
        ever completed stays Completed. */
    predicate Valid()
      reads this
    {
      attemptCount >= 0 && completedCount >= 0 && (completedCount > 0 ==> status == Completed)
    }

    /** A challenge built from master data starts Locked, untried and never
        completed. */
    constructor(id: string, name: string, desc: string, diff: ChallengeDifficulty,
                challengeType: ChallengeType, question: string, ansType: AnswerType,
                answers: seq<string>, hintText: string)
      ensures challengeId == id && challengeName == name && description == desc
      ensures difficulty == diff && this.challengeType == challengeType
      ensures questionText == question && answerType == ansType
      ensures correctAnswers == answers && hint == hintText
      ensures status == Locked && attemptCount == 0 && completedCount == 0 && lastCompletedTime == ""
      ensures Valid()
    {
      challengeId := id;
      challengeName := name;
      description := desc;
      difficulty := diff;
      this.challengeType := challengeType;
      questionText := question;
      answerType := ansType;
      correctAnswers := answers;
      hint := hintText;
      status := Locked;
      attemptCount := 0;
      completedCount := 0;
      lastCompletedTime := "";
    }

    /** CheckTextAnswer: some accepted answer equals the input after
        trimming both and ignoring case. */
    function CheckTextAnswer(userAnswer: string): (r: bool)
      ensures r <==> exists i :: 0 <= i < |correctAnswers| &&
                                 EqualsIgnoreCase(Trim(userAnswer), Trim(correctAnswers[i]))
    {
      MatchesAny(userAnswer, correctAnswers)
    }

    /** CheckAnswer: an empty input is wrong whatever the answer type; a
        numeric challenge defers to numericCheck, which stands for the
        float comparison of CheckNumericAnswer. */
    function CheckAnswer(userAnswer: string, numericCheck: string -> bool): (r: bool)
      ensures userAnswer == "" ==> !r
      ensures answerType == Text ==>
                (r <==> userAnswer != "" &&
                        exists i :: 0 <= i < |correctAnswers| &&
                                    EqualsIgnoreCase(Trim(userAnswer), Trim(correctAnswers[i])))
      ensures answerType == Number ==> (r <==> userAnswer != "" && numericCheck(userAnswer))
    {
      if userAnswer == "" then false
      else
        match answerType
        case Number => numericCheck(userAnswer)
        case Text => CheckTextAnswer(userAnswer)
    }

    /** One more attempt; nothing else changes. */
    method IncrementAttempt()
      requires Valid()
      modifies this
      ensures attemptCount == old(attemptCount) + 1
      ensures status == old(status) && completedCount == old(completedCount)
      ensures lastCompletedTime == old(lastCompletedTime)
      ensures Valid()
    {
      attemptCount := attemptCount + 1;
    }

    /** Marks the challenge Completed, counts one more completion and
        stamps it with now (the formatted clock reading). */
    method RecordCompletion(now: string)
      requires Valid()
      modifies this
      ensures status == Completed && completedCount == old(completedCount) + 1
      ensures lastCompletedTime == now && attemptCount == old(attemptCount)
      ensures StatusRank(status) >= StatusRank(old(status))
      ensures Valid()
    {
      status := Completed;
      completedCount := completedCount + 1;
      lastCompletedTime := now;
    }

    /** Locked becomes Unlocked; Unlocked and Completed stay as they are. */
    method Unlock()
      requires Valid()
      modifies this
      ensures old(status) == Locked ==> status == Unlocked
      ensures old(status) != Locked ==> status == old(status)
      ensures attemptCount == old(attemptCount) && completedCount == old(completedCount)
      ensures lastCompletedTime == old(lastCompletedTime)
      ensures StatusRank(status) >= StatusRank(old(status))
      ensures Valid()
    {
      if status == Locked {
        status := Unlocked;
      }
    }
  }
}
