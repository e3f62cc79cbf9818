/** The challenge enumerations, with their member names and declaration
    order, and the reward entry record. */
module ChallengeEnums {

  datatype ChallengeDifficulty = VeryEasy | Easy | Normal | Hard | VeryHard
  datatype ChallengeType = Math | Logic | Memory | Quiz | Other
  datatype AnswerType = Number | Text
  datatype ChallengeStatus = Locked | Unlocked | Completed

  /** Enum.GetValues(typeof(ChallengeDifficulty)), in declaration order. */
  const AllDifficulties: seq<ChallengeDifficulty> := [VeryEasy, Easy, Normal, Hard, VeryHard]
  const AllTypes: seq<ChallengeType> := [Math, Logic, Memory, Quiz, Other]
  const AllAnswerTypes: seq<AnswerType> := [Number, Text]
  const AllStatuses: seq<ChallengeStatus> := [Locked, Unlocked, Completed]

  function DifficultyName(d: ChallengeDifficulty): string {
    match d
    case VeryEasy => "VeryEasy"
    case Easy => "Easy"
    case Normal => "Normal"
    case Hard => "Hard"
    case VeryHard => "VeryHard"
  }

  function TypeName(t: ChallengeType): string {
    match t
    case Math => "Math"
    case Logic => "Logic"
    case Memory => "Memory"
    case Quiz => "Quiz"
    case Other => "Other"
  }

  function AnswerTypeName(a: AnswerType): string {
    match a
    case Number => "Number"
    case Text => "Text"
  }

  /** Every difficulty is listed, and only once. */
  lemma AllDifficultiesComplete()
    ensures forall d: ChallengeDifficulty :: d in AllDifficulties
    ensures forall i, j :: 0 <= i < j < |AllDifficulties| ==> AllDifficulties[i] != AllDifficulties[j]
  {
    forall d: ChallengeDifficulty ensures d in AllDifficulties {
      match d
      case VeryEasy => assert AllDifficulties[0] == d;
      case Easy => assert AllDifficulties[1] == d;
      case Normal => assert AllDifficulties[2] == d;
      case Hard => assert AllDifficulties[3] == d;
      case VeryHard => assert AllDifficulties[4] == d;
    }
  }

  /** Every challenge type is listed, and only once. */
  lemma AllTypesComplete()
    ensures forall t: ChallengeType :: t in AllTypes
    ensures forall i, j :: 0 <= i < j < |AllTypes| ==> AllTypes[i] != AllTypes[j]
  {
    forall t: ChallengeType ensures t in AllTypes {
      match t
      case Math => assert AllTypes[0] == t;
      case Logic => assert AllTypes[1] == t;
      case Memory => assert AllTypes[2] == t;
      case Quiz => assert AllTypes[3] == t;
      case Other => assert AllTypes[4] == t;
    }
  }

  /** RewardItem: one entry of a reward table.  The drop rate is a float
      in the original; it is carried along and never computed with. */
  datatype RewardItem = RewardItem(itemId: string, minQuantity: int, maxQuantity: int, dropRate: real)

  /** The field initialisers of RewardItem. */
  const DefaultRewardItem: RewardItem := RewardItem("", 1, 1, 0.5)
}
