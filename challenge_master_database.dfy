/** The challenge master catalogue: a list of ChallengeData asset
    references, possibly holding null entries (assets deleted from the
    project), with its add, remove, clear and clean-up operations and its
    queries. */
module ChallengeMaster {
  import opened Wrappers
  import opened Lists
  import opened ChallengeEnums
  import opened ChallengeDataModel

  predicate NonNull(c: ChallengeAsset?) { c != null }

  predicate IsNull(c: ChallengeAsset?) { c == null }

  /** The difficulty of an entry; only ever asked of non-null ones. */
  function DifficultyOf(c: ChallengeAsset?): ChallengeDifficulty {
    if c == null then Default.difficulty else c.data.difficulty
  }

  function TypeOf(c: ChallengeAsset?): ChallengeType {
    if c == null then Default.challengeType else c.data.challengeType
  }

  class ChallengeMasterDatabase {
    var allChallenges: seq<ChallengeAsset?>

    /** A new catalogue is empty. */
    constructor()
      ensures allChallenges == []
    {
      allChallenges := [];
    }

    /** GetAllChallengeData: the non-null entries, in list order. */
    function GetAllChallengeData(): (r: seq<ChallengeAsset?>)
      reads this
      ensures forall i :: 0 <= i < |r| ==> r[i] != null && r[i] in allChallenges
      ensures forall i :: 0 <= i < |allChallenges| && allChallenges[i] != null ==> allChallenges[i] in r
    {
      Filter(allChallenges, NonNull)
    }

    /** GetChallengeData: the first non-null entry whose id matches, or
        null when there is none. */
    function GetChallengeData(challengeId: string): (r: ChallengeAsset?)
      reads this
      ensures r == null <==>
                forall i :: 0 <= i < |allChallenges| ==>
                  allChallenges[i] == null || allChallenges[i].data.challengeId != challengeId
      ensures r != null ==>
                exists i :: 0 <= i < |allChallenges| && allChallenges[i] == r && r.data.challengeId == challengeId &&
                            forall j :: 0 <= j < i ==>
                              allChallenges[j] == null || allChallenges[j].data.challengeId != challengeId
    {
      match Find(allChallenges, (c: ChallengeAsset?) => c != null && c.data.challengeId == challengeId)
      case None => null
      case Some(c) => c
    }

    /** GetChallengeDataByType: the non-null entries of that type, in list
        order. */
    function GetChallengeDataByType(t: ChallengeType): (r: seq<ChallengeAsset?>)
      reads this
      ensures forall i :: 0 <= i < |r| ==> r[i] != null && r[i].data.challengeType == t && r[i] in allChallenges
      ensures forall i :: (0 <= i < |allChallenges| && allChallenges[i] != null &&
                           allChallenges[i].data.challengeType == t) ==> allChallenges[i] in r
    {
      Filter(allChallenges, (c: ChallengeAsset?) => c != null && c.data.challengeType == t)
    }

    /** GetChallengeDataByDifficulty: the non-null entries of that
        difficulty, in list order. */
    function GetChallengeDataByDifficulty(d: ChallengeDifficulty): (r: seq<ChallengeAsset?>)
      reads this
      ensures forall i :: 0 <= i < |r| ==> r[i] != null && r[i].data.difficulty == d && r[i] in allChallenges
      ensures forall i :: (0 <= i < |allChallenges| && allChallenges[i] != null &&
                           allChallenges[i].data.difficulty == d) ==> allChallenges[i] in r
    {
      Filter(allChallenges, (c: ChallengeAsset?) => c != null && c.data.difficulty == d)
    }

    /** GetChallengeCount: the number of non-null entries. */
    function GetChallengeCount(): nat
      reads this
    {
      Count(allChallenges, NonNull)
    }

    function GetChallengeCountByDifficulty(d: ChallengeDifficulty): nat
      reads this
    {
      Count(allChallenges, (c: ChallengeAsset?) => c != null && c.data.difficulty == d)
    }

    function GetChallengeCountByType(t: ChallengeType): nat
      reads this
    {
      Count(allChallenges, (c: ChallengeAsset?) => c != null && c.data.challengeType == t)
    }

    /** AddChallengeData: null and a reference already listed are ignored;
        any other asset is appended. */
    method AddChallengeData(c: ChallengeAsset?)
      modifies this
      ensures c == null || c in old(allChallenges) ==> allChallenges == old(allChallenges)
      ensures c != null && c !in old(allChallenges) ==> allChallenges == old(allChallenges) + [c]
      ensures Distinct(old(allChallenges)) ==> Distinct(allChallenges)
    {
      if c == null {
        return;
      }
      if c !in allChallenges {
        AppendDistinctIfDistinct(allChallenges, c);
        allChallenges := allChallenges + [c];
      }
    }

    /** RemoveChallengeData: the first occurrence is removed; a reference
        not listed changes nothing. */
    method RemoveChallengeData(c: ChallengeAsset?)
      modifies this
      ensures allChallenges == Remove(old(allChallenges), c)
      ensures c !in old(allChallenges) ==> allChallenges == old(allChallenges)
      ensures Distinct(old(allChallenges)) ==> Distinct(allChallenges) && c !in allChallenges
    {
      if Distinct(allChallenges) {
        RemoveDistinct(allChallenges, c);
        RemoveMembers(allChallenges, c, c);
      }
      if c in allChallenges {
        allChallenges := Remove(allChallenges, c);
      }
    }

    /** ClearAllChallenges: the list becomes empty. */
    method ClearAllChallenges()
      modifies this
      ensures allChallenges == []
    {
      allChallenges := [];
    }

    /** CleanupNullEntries: RemoveAll on null keeps the non-null entries in
        order and reports how many entries were dropped, which is the
        number of nulls. */
    method CleanupNullEntries() returns (removedCount: int)
      modifies this
      ensures allChallenges == Filter(old(allChallenges), NonNull)
      ensures removedCount == Count(old(allChallenges), IsNull)
      ensures removedCount == |old(allChallenges)| - |allChallenges|
      ensures forall i :: 0 <= i < |allChallenges| ==> allChallenges[i] != null
    {
      var beforeCount := |allChallenges|;
      RemoveAllCount(allChallenges, IsNull, NonNull);
      allChallenges := Filter(allChallenges, NonNull);
      removedCount := beforeCount - |allChallenges|;
    }

    /** The non-null count is the length of the non-null list. */
    lemma ChallengeCountIsAll()
      ensures GetChallengeCount() == |GetAllChallengeData()|
    {
      CountFilter(allChallenges, NonNull);
    }

    /** Each per-difficulty count is the length of that difficulty's list. */
    lemma DifficultyCountIsList(d: ChallengeDifficulty)
      ensures GetChallengeCountByDifficulty(d) == |GetChallengeDataByDifficulty(d)|
    {
      CountFilter(allChallenges, (c: ChallengeAsset?) => c != null && c.data.difficulty == d);
    }

    /** The per-difficulty list is the non-null list filtered by
        difficulty. */
    lemma DifficultyListFiltersAll(d: ChallengeDifficulty)
      ensures GetChallengeDataByDifficulty(d) ==
              Filter(GetAllChallengeData(), (c: ChallengeAsset?) => DifficultyOf(c) == d)
    {
      FilterFilter(allChallenges, NonNull, (c: ChallengeAsset?) => DifficultyOf(c) == d,
                   (c: ChallengeAsset?) => c != null && c.data.difficulty == d);
    }

    /** The count of one difficulty is the number of non-null entries whose
        difficulty is d. */
    lemma DifficultyCountAt(d: ChallengeDifficulty)
      ensures GetChallengeCountByDifficulty(d) == Occurrences(Keys(GetAllChallengeData(), DifficultyOf), d)
    {
      var p := (c: ChallengeAsset?) => DifficultyOf(c) == d;
      CountFiltered(allChallenges, NonNull, p, (c: ChallengeAsset?) => c != null && c.data.difficulty == d);
      CountKey(GetAllChallengeData(), DifficultyOf, d, p);
    }

    /** The counts of all difficulties, in declaration order, add up to the
        non-null count. */
    lemma DifficultyCountsSum()
      ensures var counts := OccurrencesOf(Keys(GetAllChallengeData(), DifficultyOf), AllDifficulties);
              && |counts| == |AllDifficulties|
              && (forall i :: 0 <= i < |counts| ==> counts[i] == GetChallengeCountByDifficulty(AllDifficulties[i]))
              && Sum(counts) == GetChallengeCount()
    {
      var all := GetAllChallengeData();
      AllDifficultiesComplete();
      CountsByKeySum(all, DifficultyOf, AllDifficulties);
      forall i | 0 <= i < |AllDifficulties|
        ensures OccurrencesOf(Keys(all, DifficultyOf), AllDifficulties)[i] ==
                GetChallengeCountByDifficulty(AllDifficulties[i])
      {
        OccurrencesOfAt(Keys(all, DifficultyOf), AllDifficulties, i);
        DifficultyCountAt(AllDifficulties[i]);
      }
      ChallengeCountIsAll();
    }

    /** The counts of all types, in declaration order, add up to the
        non-null count. */
    lemma TypeCountsSum()
      ensures var counts := OccurrencesOf(Keys(GetAllChallengeData(), TypeOf), AllTypes);
              && |counts| == |AllTypes|
              && (forall i :: 0 <= i < |counts| ==> counts[i] == GetChallengeCountByType(AllTypes[i]))
              && Sum(counts) == GetChallengeCount()
    {
      var all := GetAllChallengeData();
      AllTypesComplete();
      CountsByKeySum(all, TypeOf, AllTypes);
      forall i | 0 <= i < |AllTypes|
        ensures OccurrencesOf(Keys(all, TypeOf), AllTypes)[i] == GetChallengeCountByType(AllTypes[i])
      {
        OccurrencesOfAt(Keys(all, TypeOf), AllTypes, i);
        var t := AllTypes[i];
        var p := (c: ChallengeAsset?) => TypeOf(c) == t;
        CountFiltered(allChallenges, NonNull, p, (c: ChallengeAsset?) => c != null && c.data.challengeType == t);
        CountKey(all, TypeOf, t, p);
      }
      ChallengeCountIsAll();
    }
  }

  /** Appending a new element keeps a distinct list distinct. */
  lemma AppendDistinctIfDistinct(s: seq<ChallengeAsset?>, c: ChallengeAsset?)
    requires c !in s
    ensures Distinct(s) ==> Distinct(s + [c])
  {
    if Distinct(s) {
      AppendDistinct(s, c);
    }
  }
}
