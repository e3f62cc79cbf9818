/** The static query helpers over lists of challenge master data and of
    runtime challenges.  A list argument that may be null is an Option:
    None is the null list. */
module ChallengeHelper {
  import opened Wrappers
  import opened Lists
  import opened ChallengeEnums
  import opened ChallengeDataModel
  import opened ChallengeRuntime

  /** The entries of a possibly-null list; the null list has none. */
  function Entries<T>(all: Option<seq<T>>): seq<T> {
    match all
    case None => []
    case Some(s) => s
  }

  /** FilterByDifficulty: a null list gives an empty result; otherwise the
      entries of that difficulty. */
  function FilterByDifficulty(all: Option<seq<ChallengeAsset>>, d: ChallengeDifficulty): (r: seq<ChallengeAsset>)
    ensures all.None? ==> r == []
    ensures forall i :: 0 <= i < |r| ==> r[i].data.difficulty == d && r[i] in Entries(all)
    ensures forall i :: 0 <= i < |Entries(all)| && Entries(all)[i].data.difficulty == d ==> Entries(all)[i] in r
  {
    match all
    case None => []
    case Some(s) => Filter(s, (c: ChallengeAsset) => c.data.difficulty == d)
  }

  /** FilterByType: a null list gives an empty result; otherwise the
      entries of that type. */
  function FilterByType(all: Option<seq<ChallengeAsset>>, t: ChallengeType): (r: seq<ChallengeAsset>)
    ensures all.None? ==> r == []
    ensures forall i :: 0 <= i < |r| ==> r[i].data.challengeType == t && r[i] in Entries(all)
    ensures forall i :: 0 <= i < |Entries(all)| && Entries(all)[i].data.challengeType == t ==> Entries(all)[i] in r
  {
    match all
    case None => []
    case Some(s) => Filter(s, (c: ChallengeAsset) => c.data.challengeType == t)
  }

  /** FilterByDifficultyAndType: one pass testing both fields. */
  function FilterByDifficultyAndType(all: Option<seq<ChallengeAsset>>, d: ChallengeDifficulty,
                                     t: ChallengeType): (r: seq<ChallengeAsset>)
    ensures all.None? ==> r == []
    ensures forall i :: 0 <= i < |r| ==>
              r[i].data.difficulty == d && r[i].data.challengeType == t && r[i] in Entries(all)
  {
    match all
    case None => []
    case Some(s) => Filter(s, (c: ChallengeAsset) => c.data.difficulty == d && c.data.challengeType == t)
  }

  /** The filter keeps list order: filtering a concatenation filters each
      part, and a single entry is kept exactly when it has the difficulty. */
  lemma FilterByDifficultyKeepsOrder(a: seq<ChallengeAsset>, b: seq<ChallengeAsset>, d: ChallengeDifficulty)
    ensures FilterByDifficulty(Some(a + b), d) == FilterByDifficulty(Some(a), d) + FilterByDifficulty(Some(b), d)
    ensures forall c: ChallengeAsset :: FilterByDifficulty(Some([c]), d) == if c.data.difficulty == d then [c] else []
  {
    var p := (c: ChallengeAsset) => c.data.difficulty == d;
    FilterConcat(a, b, p);
    forall c: ChallengeAsset ensures FilterByDifficulty(Some([c]), d) == if c.data.difficulty == d then [c] else [] {
      FilterSingle(c, p);
    }
  }

  /** The same for the type filter. */
  lemma FilterByTypeKeepsOrder(a: seq<ChallengeAsset>, b: seq<ChallengeAsset>, t: ChallengeType)
    ensures FilterByType(Some(a + b), t) == FilterByType(Some(a), t) + FilterByType(Some(b), t)
    ensures forall c: ChallengeAsset :: FilterByType(Some([c]), t) == if c.data.challengeType == t then [c] else []
  {
    var p := (c: ChallengeAsset) => c.data.challengeType == t;
    FilterConcat(a, b, p);
    forall c: ChallengeAsset ensures FilterByType(Some([c]), t) == if c.data.challengeType == t then [c] else [] {
      FilterSingle(c, p);
    }
  }

  /** Filtering by both fields is filtering by difficulty, then by type. */
  lemma DifficultyAndTypeComposes(all: Option<seq<ChallengeAsset>>, d: ChallengeDifficulty, t: ChallengeType)
    ensures FilterByDifficultyAndType(all, d, t) == FilterByType(Some(FilterByDifficulty(all, d)), t)
  {
    match all
    case None =>
      assert FilterByType(Some([]), t) == [];
    case Some(s) =>
      FilterFilter(s, (c: ChallengeAsset) => c.data.difficulty == d, (c: ChallengeAsset) => c.data.challengeType == t,
                   (c: ChallengeAsset) => c.data.difficulty == d && c.data.challengeType == t);
  }

  /** GetRandomChallengeByDifficulty: null when no entry has the
      difficulty, otherwise one of them.  Random.Range(0, n) is the
      parameter roll taken modulo n. */
  function GetRandomChallengeByDifficulty(all: Option<seq<ChallengeAsset>>, d: ChallengeDifficulty,
                                          roll: nat): (r: Option<ChallengeAsset>)
    ensures r.None? <==> FilterByDifficulty(all, d) == []
    ensures r.Some? ==> r.value in FilterByDifficulty(all, d) && r.value.data.difficulty == d
    ensures r.Some? ==> r.value in Entries(all)
  {
    var filtered := FilterByDifficulty(all, d);
    if |filtered| == 0 then None
    else Some(filtered[roll % |filtered|])
  }

  /** Every entry of the filtered list is a possible pick. */
  lemma EveryMatchCanBePicked(all: Option<seq<ChallengeAsset>>, d: ChallengeDifficulty, i: nat)
    requires i < |FilterByDifficulty(all, d)|
    ensures GetRandomChallengeByDifficulty(all, d, i) == Some(FilterByDifficulty(all, d)[i])
  {
    var n := |FilterByDifficulty(all, d)|;
    assert i % n == i;
  }

  /** FindChallengeById: null for a null list or an empty id; otherwise
      the first challenge with that id, or null if none has it. */
  function FindChallengeById(challenges: Option<seq<Challenge>>, challengeId: string): (r: Challenge?)
    ensures challenges.None? || challengeId == "" ==> r == null
    ensures challenges.Some? && challengeId != "" ==>
              (r == null <==> forall i :: 0 <= i < |challenges.value| ==> challenges.value[i].challengeId != challengeId)
    ensures r != null ==>
              challenges.Some? && challengeId != "" &&
              exists i :: 0 <= i < |challenges.value| && challenges.value[i] == r && r.challengeId == challengeId &&
                          forall j :: 0 <= j < i ==> challenges.value[j].challengeId != challengeId
  {
    if challenges.None? || challengeId == "" then null
    else
      match Find(challenges.value, (c: Challenge) => c.challengeId == challengeId)
      case None => null
      case Some(c) => c
  }

  /** The challenges of s in status st, in order. */
  function WithStatus(s: seq<Challenge>, st: ChallengeStatus): (r: seq<Challenge>)
    reads s
    ensures |r| <= |s|
    ensures forall i :: 0 <= i < |r| ==> r[i] in s && r[i].status == st
    ensures forall i :: 0 <= i < |s| && s[i].status == st ==> s[i] in r
  {
    if |s| == 0 then []
    else
      var rest := WithStatus(s[1..], st);
      assert forall i :: 1 <= i < |s| ==> s[i] == s[1..][i - 1];
      (if s[0].status == st then [s[0]] else []) + rest
  }

  /** How many challenges of s are in status st. */
  function CountStatus(s: seq<Challenge>, st: ChallengeStatus): nat
    reads s
  {
    if |s| == 0 then 0 else (if s[0].status == st then 1 else 0) + CountStatus(s[1..], st)
  }

  /** How many challenges of s are Completed and of difficulty d. */
  function CountCompletedOf(s: seq<Challenge>, d: ChallengeDifficulty): nat
    reads s
  {
    if |s| == 0 then 0
    else (if s[0].status == Completed && s[0].difficulty == d then 1 else 0) + CountCompletedOf(s[1..], d)
  }

  /** GetChallengesByStatus: a null list gives an empty result. */
  function GetChallengesByStatus(challenges: Option<seq<Challenge>>, st: ChallengeStatus): (r: seq<Challenge>)
    reads Entries(challenges)
    ensures challenges.None? ==> r == []
    ensures forall i :: 0 <= i < |r| ==> r[i] in Entries(challenges) && r[i].status == st
    ensures forall i :: 0 <= i < |Entries(challenges)| && Entries(challenges)[i].status == st ==>
              Entries(challenges)[i] in r
  {
    WithStatus(Entries(challenges), st)
  }

  /** GetCompletedChallengeCount: 0 for a null list. */
  function GetCompletedChallengeCount(challenges: Option<seq<Challenge>>): nat
    reads Entries(challenges)
  {
    CountStatus(Entries(challenges), Completed)
  }

  /** GetCompletedChallengeCountByDifficulty: 0 for a null list. */
  function GetCompletedChallengeCountByDifficulty(challenges: Option<seq<Challenge>>, d: ChallengeDifficulty): nat
    reads Entries(challenges)
  {
    CountCompletedOf(Entries(challenges), d)
  }

  lemma {:induction false} CountStatusIsLength(s: seq<Challenge>, st: ChallengeStatus)
    ensures CountStatus(s, st) == |WithStatus(s, st)|
  {
    if |s| > 0 {
      CountStatusIsLength(s[1..], st);
    }
  }

  /** The completed count is the length of the completed list. */
  lemma CompletedCountIsList(challenges: Option<seq<Challenge>>)
    ensures GetCompletedChallengeCount(challenges) == |GetChallengesByStatus(challenges, Completed)|
  {
    CountStatusIsLength(Entries(challenges), Completed);
  }

  lemma {:induction false} CompletedOfAtMostCompleted(s: seq<Challenge>, d: ChallengeDifficulty)
    ensures CountCompletedOf(s, d) <= CountStatus(s, Completed)
  {
    if |s| > 0 {
      CompletedOfAtMostCompleted(s[1..], d);
    }
  }

  /** The completed count of one difficulty never exceeds the total
      completed count. */
  lemma CompletedByDifficultyAtMostCompleted(challenges: Option<seq<Challenge>>, d: ChallengeDifficulty)
    ensures GetCompletedChallengeCountByDifficulty(challenges, d) <= GetCompletedChallengeCount(challenges)
  {
    CompletedOfAtMostCompleted(Entries(challenges), d);
  }

  /** The sum of the attempt counters. */
  function TotalAttempts(s: seq<Challenge>): int
    reads s
  {
    if |s| == 0 then 0 else s[0].attemptCount + TotalAttempts(s[1..])
  }

  /** Every challenge is in exactly one of the three states. */
  lemma {:induction false} StatusCountsPartition(s: seq<Challenge>)
    ensures CountStatus(s, Completed) + CountStatus(s, Unlocked) + CountStatus(s, Locked) == |s|
  {
    if |s| > 0 {
      StatusCountsPartition(s[1..]);
    }
  }

  /** Non-negative attempt counters add up to a non-negative total. */
  lemma {:induction false} TotalAttemptsNonNegative(s: seq<Challenge>)
    ensures (forall i :: 0 <= i < |s| ==> s[i].attemptCount >= 0) ==> TotalAttempts(s) >= 0
  {
    if |s| > 0 {
      assert forall i :: 1 <= i < |s| ==> s[i] == s[1..][i - 1];
      TotalAttemptsNonNegative(s[1..]);
    }
  }

  /** The figures GetStatistics reports. */
  datatype Statistics = Statistics(total: nat, completed: nat, unlocked: nat, locked: nat, totalAttempts: int)

  /** The counts of GetStatistics; None stands for the "no statistics"
      message given for a null or empty list. */
  function GetStatistics(challenges: Option<seq<Challenge>>): (r: Option<Statistics>)
    reads Entries(challenges)
    ensures r.None? <==> |Entries(challenges)| == 0
    ensures r.Some? ==> r.value.completed + r.value.unlocked + r.value.locked == r.value.total
    ensures r.Some? ==> r.value.total == |Entries(challenges)|
    ensures r.Some? ==> r.value.completed == GetCompletedChallengeCount(challenges)
    ensures r.Some? && (forall i :: 0 <= i < |Entries(challenges)| ==> Entries(challenges)[i].attemptCount >= 0) ==>
              r.value.totalAttempts >= 0
  {
    var s := Entries(challenges);
    if |s| == 0 then None
    else
      StatusCountsPartition(s);
      TotalAttemptsNonNegative(s);
      Some(Statistics(|s|, CountStatus(s, Completed), CountStatus(s, Unlocked), CountStatus(s, Locked),
                      TotalAttempts(s)))
  }
}
