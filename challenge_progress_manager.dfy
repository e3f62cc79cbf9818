/** The player's solved-challenge tracker: the set of solved challenge ids
    and one solved counter per difficulty, kept for the running session. */
module ChallengeProgress {
  import opened Wrappers
  import opened Lists
  import opened ChallengeEnums
  import opened ChallengeDataModel
  import opened ChallengeMaster

  /** The sum of the counters of the given difficulties; a difficulty
      without a counter adds nothing. */
  function SumCounts(m: map<ChallengeDifficulty, int>, keys: seq<ChallengeDifficulty>): int {
    if |keys| == 0 then 0
    else (if keys[0] in m then m[keys[0]] else 0) + SumCounts(m, keys[1..])
  }

  /** Changing one counter changes the sum over a distinct key list by the
      same amount when the key is listed, and not at all otherwise. */
  lemma {:induction false} SumCountsUpdate(m: map<ChallengeDifficulty, int>, keys: seq<ChallengeDifficulty>,
                                           d: ChallengeDifficulty, v: int)
    requires d in m && Distinct(keys)
    ensures SumCounts(m[d := v], keys) == SumCounts(m, keys) + (if d in keys then v - m[d] else 0)
  {
    if |keys| > 0 {
      assert Distinct(keys[1..]) by {
        assert forall i :: 0 <= i < |keys[1..]| ==> keys[1..][i] == keys[i + 1];
      }
      assert keys[0] == d ==> d !in keys[1..] by {
        assert forall i :: 0 <= i < |keys[1..]| ==> keys[1..][i] == keys[i + 1];
      }
      assert d in keys <==> keys[0] == d || d in keys[1..];
      SumCountsUpdate(m, keys[1..], d, v);
    }
  }

  /** Counters that are all zero add up to zero. */
  lemma {:induction false} SumCountsZero(m: map<ChallengeDifficulty, int>, keys: seq<ChallengeDifficulty>)
    requires forall k :: k in m ==> m[k] == 0
    ensures SumCounts(m, keys) == 0
  {
    if |keys| > 0 {
      SumCountsZero(m, keys[1..]);
    }
  }

  lemma AllDifficultiesDistinct()
    ensures Distinct(AllDifficulties)
  {
    AllDifficultiesComplete();
  }

  /** The ids of the non-null entries of a catalogue list. */
  function IdsOf(list: seq<ChallengeAsset?>): set<string> {
    if |list| == 0 then {}
    else
      var last := list[|list| - 1];
      IdsOf(list[..|list| - 1]) + (if last == null then {} else {last.data.challengeId})
  }

  class ChallengeProgressManager {
    var solvedChallengeIds: set<string>
    var solvedCountByDifficulty: map<ChallengeDifficulty, int>

    /** Every difficulty has a counter. */
    predicate Initialised()
      reads this
    {
      forall d: ChallengeDifficulty :: d in solvedCountByDifficulty
    }

    /** The counters are initialised and add up to the number of solved
        ids. */
    predicate Valid()
      reads this
    {
      Initialised() && SumCounts(solvedCountByDifficulty, AllDifficulties) == |solvedChallengeIds|
    }

    /** The field initialisers: no solved id and no counter yet. */
    constructor()
      ensures solvedChallengeIds == {} && solvedCountByDifficulty == map[]
    {
      solvedChallengeIds := {};
      solvedCountByDifficulty := map[];
    }

    /** Awake: every difficulty's counter is set to 0; the solved set is
        left as it is, so on a fresh manager the invariant holds. */
    method Awake()
      modifies this
      ensures solvedChallengeIds == old(solvedChallengeIds)
      ensures Initialised()
      ensures forall d :: d in solvedCountByDifficulty ==> solvedCountByDifficulty[d] == 0
      ensures old(solvedChallengeIds) == {} ==> Valid()
    {
      AllDifficultiesComplete();
      var i := 0;
      while i < |AllDifficulties|
        invariant 0 <= i <= |AllDifficulties|
        invariant solvedChallengeIds == old(solvedChallengeIds)
        invariant forall d :: d in AllDifficulties[..i] ==> d in solvedCountByDifficulty
        invariant forall d :: d in solvedCountByDifficulty && d in AllDifficulties[..i] ==>
                               solvedCountByDifficulty[d] == 0
      {
        solvedCountByDifficulty := solvedCountByDifficulty[AllDifficulties[i] := 0];
        i := i + 1;
      }
      assert AllDifficulties[..i] == AllDifficulties;
      if solvedChallengeIds == {} {
        SumCountsZero(solvedCountByDifficulty, AllDifficulties);
      }
    }

    /** IsSolved: the id is in the solved set. */
    predicate IsSolved(challengeId: string)
      reads this
    {
      challengeId in solvedChallengeIds
    }

    /** GetSolvedCount: the difficulty's counter, 0 when it has none. */
    function GetSolvedCount(d: ChallengeDifficulty): (n: int)
      reads this
      ensures d !in solvedCountByDifficulty ==> n == 0
    {
      if d in solvedCountByDifficulty then solvedCountByDifficulty[d] else 0
    }

    /** GetTotalSolvedCount: the number of solved ids. */
    function GetTotalSolvedCount(): nat
      reads this
    {
      |solvedChallengeIds|
    }

    /** The per-difficulty solved counts add up to the total. */
    lemma SolvedCountsSum()
      requires Valid()
      ensures GetSolvedCount(VeryEasy) + GetSolvedCount(Easy) + GetSolvedCount(Normal) +
              GetSolvedCount(Hard) + GetSolvedCount(VeryHard) == GetTotalSolvedCount()
    {
      var m := solvedCountByDifficulty;
      assert [VeryHard][1..] == [];
      assert SumCounts(m, [VeryHard]) == m[VeryHard];
      assert [Hard, VeryHard][1..] == [VeryHard];
      assert SumCounts(m, [Hard, VeryHard]) == m[Hard] + m[VeryHard];
      assert [Normal, Hard, VeryHard][1..] == [Hard, VeryHard];
      assert SumCounts(m, [Normal, Hard, VeryHard]) == m[Normal] + m[Hard] + m[VeryHard];
      assert [Easy, Normal, Hard, VeryHard][1..] == [Normal, Hard, VeryHard];
      assert SumCounts(m, [Easy, Normal, Hard, VeryHard]) == m[Easy] + m[Normal] + m[Hard] + m[VeryHard];
      assert AllDifficulties[1..] == [Easy, Normal, Hard, VeryHard];
    }

    /** MarkAsSolved: an empty id or an id already solved changes nothing;
        a new id joins the set and raises its difficulty's counter, if that
        counter exists, by one. */
    method MarkAsSolved(challengeId: string, d: ChallengeDifficulty)
      modifies this
      ensures challengeId == "" || challengeId in old(solvedChallengeIds) ==>
                solvedChallengeIds == old(solvedChallengeIds) &&
                solvedCountByDifficulty == old(solvedCountByDifficulty)
      ensures challengeId != "" && challengeId !in old(solvedChallengeIds) ==>
                solvedChallengeIds == old(solvedChallengeIds) + {challengeId} &&
                solvedCountByDifficulty ==
                  if d in old(solvedCountByDifficulty)
                  then old(solvedCountByDifficulty)[d := old(solvedCountByDifficulty)[d] + 1]
                  else old(solvedCountByDifficulty)
      ensures challengeId != "" ==> IsSolved(challengeId)
      ensures old(Valid()) ==> Valid()
    {
      if challengeId == "" {
        return;
      }
      if challengeId !in solvedChallengeIds {
        solvedChallengeIds := solvedChallengeIds + {challengeId};
        if d in solvedCountByDifficulty {
          AllDifficultiesDistinct();
          AllDifficultiesComplete();
          SumCountsUpdate(solvedCountByDifficulty, AllDifficulties, d, solvedCountByDifficulty[d] + 1);
          solvedCountByDifficulty := solvedCountByDifficulty[d := solvedCountByDifficulty[d] + 1];
        }
      }
    }

    /** GetUnsolvedChallenges: a null list gives an empty result; otherwise
        the entries whose id is not solved, in order. */
    function GetUnsolvedChallenges(all: Option<seq<ChallengeAsset?>>): (r: seq<ChallengeAsset?>)
      requires all.Some? ==> forall i :: 0 <= i < |all.value| ==> all.value[i] != null
      reads this
      ensures all.None? ==> r == []
      ensures forall i :: 0 <= i < |r| ==> r[i] != null && r[i] in all.value && !IsSolved(r[i].data.challengeId)
      ensures all.Some? ==>
                forall i :: 0 <= i < |all.value| && !IsSolved(all.value[i].data.challengeId) ==> all.value[i] in r
    {
      match all
      case None => []
      case Some(s) =>
        var solved := solvedChallengeIds;
        Filter(s, (c: ChallengeAsset?) => c != null && c.data.challengeId !in solved)
    }

    /** With nothing solved, every entry is unsolved. */
    lemma NothingSolvedKeepsAll(s: seq<ChallengeAsset?>)
      requires solvedChallengeIds == {}
      requires forall i :: 0 <= i < |s| ==> s[i] != null
      ensures GetUnsolvedChallenges(Some(s)) == s
    {
      var solved := solvedChallengeIds;
      FilterAll(s, (c: ChallengeAsset?) => c != null && c.data.challengeId !in solved);
    }

    /** GetUnsolvedChallengesByDifficulty: exactly the catalogue's entries
        of that difficulty that are not solved. */
    function GetUnsolvedChallengesByDifficulty(catalogue: ChallengeMasterDatabase, d: ChallengeDifficulty)
      : (r: seq<ChallengeAsset?>)
      reads this, catalogue
      ensures forall i :: 0 <= i < |r| ==>
                r[i] != null && r[i].data.difficulty == d && r[i] in catalogue.allChallenges &&
                !IsSolved(r[i].data.challengeId)
      ensures forall i :: (0 <= i < |catalogue.allChallenges| && catalogue.allChallenges[i] != null &&
                           catalogue.allChallenges[i].data.difficulty == d &&
                           !IsSolved(catalogue.allChallenges[i].data.challengeId)) ==> catalogue.allChallenges[i] in r
    {
      GetUnsolvedChallenges(Some(catalogue.GetChallengeDataByDifficulty(d)))
    }

    /** Reset: the solved set becomes empty and every existing counter 0;
        no counter is added or removed. */
    method Reset()
      modifies this
      ensures solvedChallengeIds == {}
      ensures solvedCountByDifficulty.Keys == old(solvedCountByDifficulty).Keys
      ensures forall d :: d in solvedCountByDifficulty ==> solvedCountByDifficulty[d] == 0
      ensures old(Initialised()) ==> Valid()
    {
      solvedChallengeIds := {};
      var keys := solvedCountByDifficulty.Keys;
      while keys != {}
        invariant solvedChallengeIds == {}
        invariant keys <= solvedCountByDifficulty.Keys
        invariant solvedCountByDifficulty.Keys == old(solvedCountByDifficulty).Keys
        invariant forall d :: d in solvedCountByDifficulty && d !in keys ==> solvedCountByDifficulty[d] == 0
        decreases |keys|
      {
        var k :| k in keys;
        solvedCountByDifficulty := solvedCountByDifficulty[k := 0];
        keys := keys - {k};
      }
      SumCountsZero(solvedCountByDifficulty, AllDifficulties);
    }

    /** ResetByDifficulty: the ids of the catalogue's entries of that
        difficulty leave the solved set, and the difficulty's counter, if
        it exists, goes down by one for each id actually removed. */
    method ResetByDifficulty(catalogue: ChallengeMasterDatabase, d: ChallengeDifficulty)
      modifies this
      ensures solvedChallengeIds == old(solvedChallengeIds) - IdsOf(catalogue.GetChallengeDataByDifficulty(d))
      ensures solvedCountByDifficulty ==
                Lowered(old(solvedCountByDifficulty), d, |old(solvedChallengeIds)| - |solvedChallengeIds|)
      ensures old(Valid()) ==> Valid()
    {
      var list := catalogue.GetChallengeDataByDifficulty(d);
      ForgetAll(list, d);
    }

    /** The loop of ResetByDifficulty over the catalogue's entries of the
        difficulty. */
    method ForgetAll(list: seq<ChallengeAsset?>, d: ChallengeDifficulty)
      requires forall i :: 0 <= i < |list| ==> list[i] != null
      modifies this
      ensures solvedChallengeIds == old(solvedChallengeIds) - IdsOf(list)
      ensures solvedCountByDifficulty ==
                Lowered(old(solvedCountByDifficulty), d, |old(solvedChallengeIds)| - |solvedChallengeIds|)
      ensures old(Valid()) ==> Valid()
    {
      ghost var ids0 := solvedChallengeIds;
      ghost var m0 := solvedCountByDifficulty;
      ghost var removed := 0;
      LoweredZero(m0, d);
      var i := 0;
      while i < |list|
        invariant 0 <= i <= |list|
        invariant solvedChallengeIds == ids0 - IdsOf(list[..i])
        invariant |solvedChallengeIds| == |ids0| - removed
        invariant solvedCountByDifficulty == Lowered(m0, d, removed)
        invariant old(Valid()) ==> Valid()
      {
        IdsOfSnoc(list, i);
        var id := list[i].data.challengeId;
        ghost var step := if id in solvedChallengeIds then 1 else 0;
        Forget(id, d);
        LoweredTwice(m0, d, removed, step);
        removed := removed + step;
        i := i + 1;
      }
      assert list[..|list|] == list;
    }

    /** One step of ResetByDifficulty: a solved id leaves the set and the
        difficulty's counter, if it exists, goes down by one; an unsolved id
        changes nothing. */
    method Forget(challengeId: string, d: ChallengeDifficulty)
      modifies this
      ensures solvedChallengeIds == old(solvedChallengeIds) - {challengeId}
      ensures |solvedChallengeIds| == |old(solvedChallengeIds)| - (if challengeId in old(solvedChallengeIds) then 1 else 0)
      ensures solvedCountByDifficulty ==
                Lowered(old(solvedCountByDifficulty), d, if challengeId in old(solvedChallengeIds) then 1 else 0)
      ensures old(Valid()) ==> Valid()
    {
      if challengeId in solvedChallengeIds {
        solvedChallengeIds := solvedChallengeIds - {challengeId};
        if d in solvedCountByDifficulty {
          AllDifficultiesDistinct();
          AllDifficultiesComplete();
          SumCountsUpdate(solvedCountByDifficulty, AllDifficulties, d, solvedCountByDifficulty[d] - 1);
          solvedCountByDifficulty := solvedCountByDifficulty[d := solvedCountByDifficulty[d] - 1];
        }
      } else {
        LoweredZero(solvedCountByDifficulty, d);
      }
    }
  }

  /** The counters with d's counter, when there is one, lowered by n. */
  function Lowered(m: map<ChallengeDifficulty, int>, d: ChallengeDifficulty, n: int): map<ChallengeDifficulty, int> {
    if d in m then m[d := m[d] - n] else m
  }

  lemma LoweredZero(m: map<ChallengeDifficulty, int>, d: ChallengeDifficulty)
    ensures Lowered(m, d, 0) == m
  {
  }

  /** Lowering twice is lowering by the sum. */
  lemma LoweredTwice(m: map<ChallengeDifficulty, int>, d: ChallengeDifficulty, a: int, b: int)
    ensures Lowered(Lowered(m, d, a), d, b) == Lowered(m, d, a + b)
  {
  }

  /** Extending a prefix by one non-null entry adds that entry's id. */
  lemma IdsOfSnoc(list: seq<ChallengeAsset?>, i: nat)
    requires i < |list| && list[i] != null
    ensures IdsOf(list[..i + 1]) == IdsOf(list[..i]) + {list[i].data.challengeId}
  {
    assert list[..i + 1][..i] == list[..i];
  }
}
