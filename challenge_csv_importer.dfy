/** The batch import of a challenge CSV file into ChallengeData assets.

    The editor services the importer talks to are modelled explicitly: the
    asset store is an AssetDatabase object holding the folders that exist,
    the asset files by path and the number of saves; the operator's answers
    to the progress bar's cancel button and to the overwrite dialog are the
    functions of an Operator value, asked with the row index. */
module ChallengeImporter {
  import opened Wrappers
  import opened Text
  import opened ChallengeEnums
  import opened ChallengeDataModel
  import opened ChallengeMaster
  import CsvSimpleParser
  import Lists
  import opened ChallengeCsvParser

  /** The project's asset folders and files as the importer sees them. */
  class AssetDatabase {
    var folders: set<string>
    var assets: map<string, ChallengeAsset>
    var saveCount: nat

    /** AssetDatabase.IsValidFolder. */
    predicate IsValidFolder(path: string)
      reads this
    {
      path in folders
    }

    /** AssetDatabase.CreateFolder: the folder name under parent. */
    method CreateFolder(parent: string, name: string)
      modifies this
      ensures folders == old(folders) + {parent + "/" + name}
      ensures assets == old(assets) && saveCount == old(saveCount)
    {
      folders := folders + {parent + "/" + name};
    }

    /** AssetDatabase.CreateAsset: the asset file at path, replacing any
        file already there. */
    method CreateAsset(asset: ChallengeAsset, path: string)
      modifies this
      ensures assets == old(assets)[path := asset]
      ensures folders == old(folders) && saveCount == old(saveCount)
    {
      assets := assets[path := asset];
    }

    /** AssetDatabase.SaveAssets. */
    method SaveAssets()
      modifies this
      ensures saveCount == old(saveCount) + 1
      ensures folders == old(folders) && assets == old(assets)
    {
      saveCount := saveCount + 1;
    }
  }

  /** The operator: whether the cancel button is down when row i comes up,
      and whether an existing asset file is overwritten at row i. */
  datatype Operator = Operator(cancel: nat -> bool, overwrite: nat -> bool)

  /** How a run ends, with the figures its dialog reports.  Row numbers
      are the 1-based i + 1 of the original. */
  datatype ImportOutcome =
    | ParseError(error: CsvSimpleParser.CsvError)
    | NoDataRows
    | Cancelled(imported: nat)
    | RowFailed(row: nat, message: string)
    | OverwriteDeclined(imported: nat, challengeId: string)
    | Completed(successCount: nat, totalCount: nat)

  /** {outputFolder}/{type}/{difficulty}. */
  function FolderPath(outputFolder: string, d: ChallengeData): string {
    Join('/', [outputFolder, TypeName(d.challengeType), DifficultyName(d.difficulty)])
  }

  /** {folderPath}/{challengeId}.asset. */
  function AssetPath(outputFolder: string, d: ChallengeData): string {
    Join('/', [FolderPath(outputFolder, d), d.challengeId + ".asset"])
  }

  /** The two paths spelled out as the concatenations the importer builds. */
  lemma PathsSpelled(outputFolder: string, d: ChallengeData)
    ensures FolderPath(outputFolder, d) ==
            outputFolder + "/" + TypeName(d.challengeType) + "/" + DifficultyName(d.difficulty)
    ensures AssetPath(outputFolder, d) == FolderPath(outputFolder, d) + "/" + d.challengeId + ".asset"
  {
    var parts := [outputFolder, TypeName(d.challengeType), DifficultyName(d.difficulty)];
    assert parts[1..][1..] == [DifficultyName(d.difficulty)];
    assert Join('/', parts[1..]) == TypeName(d.challengeType) + "/" + DifficultyName(d.difficulty);
    var file := [FolderPath(outputFolder, d), d.challengeId + ".asset"];
    assert file[1..] == [d.challengeId + ".asset"];
    assert Join('/', file[1..]) == d.challengeId + ".asset";
    assert Join('/', file) == file[0] + "/" + Join('/', file[1..]);
  }

  // ---------------------------------------------------------------------
  // EnsureFolderExists

  /** The paths made of the first j segments, for 2 <= j <= k. */
  function FoldersAlong(segments: seq<string>, k: nat): set<string>
    requires k <= |segments|
  {
    if k < 2 then {} else FoldersAlong(segments, k - 1) + {Join('/', segments[..k])}
  }

  /** EnsureFolderExists: every '/'-prefix of the path after the first
      segment is created, in order, unless it exists already; nothing else
      changes. */
  method EnsureFolderExists(store: AssetDatabase, path: string)
    modifies store
    ensures store.folders == old(store.folders) + FoldersAlong(Split(path, '/'), |Split(path, '/')|)
    ensures store.assets == old(store.assets) && store.saveCount == old(store.saveCount)
  {
    var folders := Split(path, '/');
    var currentPath := folders[0];
    assert folders[..1] == [folders[0]];
    for i := 1 to |folders|
      invariant currentPath == Join('/', folders[..i])
      invariant store.folders == old(store.folders) + FoldersAlong(folders, i)
      invariant store.assets == old(store.assets) && store.saveCount == old(store.saveCount)
    {
      var nextPath := currentPath + "/" + folders[i];
      JoinSnoc('/', folders[..i], folders[i]);
      assert folders[..i + 1] == folders[..i] + [folders[i]];
      if !store.IsValidFolder(nextPath) {
        store.CreateFolder(currentPath, folders[i]);
      }
      currentPath := nextPath;
    }
  }

  /** A path holding a '/' is itself among the folders EnsureFolderExists
      creates. */
  lemma FullPathCreated(path: string)
    requires '/' in path
    ensures path in FoldersAlong(Split(path, '/'), |Split(path, '/')|)
  {
    var segments := Split(path, '/');
    SplitHasSeparator(path, '/');
    JoinSplit(path, '/');
    assert segments[..|segments|] == segments;
    assert path in FoldersAlong(segments, |segments|) by {
      assert FoldersAlong(segments, |segments|) ==
             FoldersAlong(segments, |segments| - 1) + {Join('/', segments[..|segments|])};
    }
  }

  /** The folders along a path are exactly its '/'-prefixes of two or
      more segments. */
  lemma {:induction false} FoldersAlongMembers(segments: seq<string>, k: nat, p: string)
    requires k <= |segments|
    ensures p in FoldersAlong(segments, k) <==> exists j :: 2 <= j <= k && p == Join('/', segments[..j])
  {
    if k >= 2 {
      FoldersAlongMembers(segments, k - 1, p);
    }
  }

  lemma FolderPathHasSeparator(outputFolder: string, d: ChallengeData)
    ensures '/' in FolderPath(outputFolder, d)
  {
    PathsSpelled(outputFolder, d);
    assert FolderPath(outputFolder, d)[|outputFolder|] == '/';
  }

  // ---------------------------------------------------------------------
  // The import loop, as functions of its inputs

  /** decoded holds how each row decodes.  The connection is only made
      where a row is actually decoded. */
  predicate RowsDecodeTo(rows: seq<Row>, fromJson: string -> JsonOutcome, decoded: seq<Result<ChallengeData, string>>) {
    |decoded| == |rows| &&
    forall j {:trigger DecodeRow(rows[j], fromJson)} :: 0 <= j < |rows| ==> decoded[j] == DecodeRow(rows[j], fromJson)
  }

  /** The rows decoded one by one. */
  function DecodeAll(rows: seq<Row>, fromJson: string -> JsonOutcome): (r: seq<Result<ChallengeData, string>>)
    ensures RowsDecodeTo(rows, fromJson, r)
  {
    seq(|rows|, j requires 0 <= j < |rows| => DecodeRow(rows[j], fromJson))
  }

  /** What happens at row i, given how it decodes, when the paths in
      existing hold asset files: the run stops with an outcome, or the
      row's data is imported. */
  datatype Step = Stop(outcome: ImportOutcome) | Import(data: ChallengeData)

  function RowStep(decoded: Result<ChallengeData, string>, i: nat, outputFolder: string, op: Operator,
                   existing: set<string>): Step
  {
    if op.cancel(i) then Stop(Cancelled(i))
    else
      match decoded
      case Failure(e) => Stop(RowFailed(i + 1, e))
      case Success(d) =>
        if AssetPath(outputFolder, d) in existing && !op.overwrite(i) then Stop(OverwriteDeclined(i, d.challengeId))
        else Import(d)
  }

  /** The data of the rows imported, in order, and how the run ends. */
  datatype Run = Run(imported: seq<ChallengeData>, outcome: ImportOutcome)

  /** The loop from row i on, over the decoded rows. */
  function RunFrom(decoded: seq<Result<ChallengeData, string>>, i: nat, outputFolder: string, op: Operator,
                   existing: set<string>): Run
    requires i <= |decoded|
    decreases |decoded| - i
  {
    if i == |decoded| then Run([], ImportOutcome.Completed(|decoded|, |decoded|))
    else
      match RowStep(decoded[i], i, outputFolder, op, existing)
      case Stop(o) => Run([], o)
      case Import(d) =>
        var rest := RunFrom(decoded, i + 1, outputFolder, op, existing + {AssetPath(outputFolder, d)});
        Run([d] + rest.imported, rest.outcome)
  }

  /** The number of rows an outcome reports as imported. */
  function ImportedCount(o: ImportOutcome): int {
    match o
    case ParseError(_) => 0
    case NoDataRows => 0
    case Cancelled(n) => n
    case RowFailed(k, _) => k - 1
    case OverwriteDeclined(n, _) => n
    case Completed(n, _) => n
  }

  /** The intermediate save after row index i: made when i > 0 and
      i % 100 == 0. */
  function SaveAfter(i: nat): nat {
    if i > 0 && i % 100 == 0 then 1 else 0
  }

  /** The intermediate saves after the first n rows. */
  function Checkpoints(n: nat): nat {
    if n == 0 then 0 else Checkpoints(n - 1) + SaveAfter(n - 1)
  }

  // ---------------------------------------------------------------------
  // The import loop

  /** The body of the loop for row i: the cancel check, the decode, the
      folder, the overwrite question, the asset, its registration and the
      periodic save. */
  method ImportRow(rows: seq<Row>, ghost decoded: seq<Result<ChallengeData, string>>, i: nat, outputFolder: string,
                   fromJson: string -> JsonOutcome, op: Operator, db: ChallengeMasterDatabase, store: AssetDatabase)
    returns (stop: Option<ImportOutcome>, ghost step: Step, ghost asset: ChallengeAsset?)
    requires RowsDecodeTo(rows, fromJson, decoded) && i < |rows|
    modifies db, store
    ensures step == RowStep(decoded[i], i, outputFolder, op, old(store.assets).Keys)
    ensures step.Stop? ==>
              stop == Some(step.outcome) && db.allChallenges == old(db.allChallenges) &&
              store.assets == old(store.assets) && store.saveCount == old(store.saveCount)
    ensures step.Import? ==>
              stop.None? && asset != null && fresh(asset) && asset.data == step.data &&
              db.allChallenges == old(db.allChallenges) + [asset] &&
              store.assets == old(store.assets)[AssetPath(outputFolder, step.data) := asset] &&
              store.assets.Keys == old(store.assets).Keys + {AssetPath(outputFolder, step.data)} &&
              store.saveCount == old(store.saveCount) + SaveAfter(i) &&
              FolderPath(outputFolder, step.data) in store.folders
    ensures old(store.folders) <= store.folders
  {
    asset := null;
    step := RowStep(decoded[i], i, outputFolder, op, store.assets.Keys);
    if op.cancel(i) {
      return Some(Cancelled(i)), step, asset;
    }
    var result := CreateChallengeDataFromRow(rows[i], fromJson);
    if result.Failure? {
      return Some(RowFailed(i + 1, result.error)), step, asset;
    }
    var data := result.value;
    var folderPath := outputFolder + "/" + TypeName(data.challengeType) + "/" + DifficultyName(data.difficulty);
    PathsSpelled(outputFolder, data);
    EnsureFolderExists(store, folderPath);
    FolderPathHasSeparator(outputFolder, data);
    FullPathCreated(folderPath);
    var assetPath := folderPath + "/" + data.challengeId + ".asset";
    if assetPath in store.assets {
      if !op.overwrite(i) {
        return Some(OverwriteDeclined(i, data.challengeId)), step, asset;
      }
    }
    var created := new ChallengeAsset(data);
    store.CreateAsset(created, assetPath);
    db.AddChallengeData(created);
    if i % 100 == 0 && i > 0 {
      store.SaveAssets();
    }
    return None, step, created;
  }

  /** The asset paths of the imported rows. */
  function PathsOf(outputFolder: string, imported: seq<ChallengeData>): set<string>
  {
    if |imported| == 0 then {}
    else PathsOf(outputFolder, imported[..|imported| - 1]) + {AssetPath(outputFolder, imported[|imported| - 1])}
  }

  /** The loop of ExecuteImport over the parsed rows: the rows are
      imported in order, each as a new asset at its path and a new
      catalogue entry, until the first one that stops the run. */
  method ImportLoop(rows: seq<Row>, ghost decoded: seq<Result<ChallengeData, string>>, outputFolder: string,
                    fromJson: string -> JsonOutcome, op: Operator, db: ChallengeMasterDatabase, store: AssetDatabase)
    returns (stop: Option<ImportOutcome>, ghost imported: seq<ChallengeData>, ghost added: seq<ChallengeAsset?>)
    requires RowsDecodeTo(rows, fromJson, decoded)
    modifies db, store
    ensures stop.Some? ==> !stop.value.Completed?
    ensures var run := RunFrom(decoded, 0, outputFolder, op, old(store.assets).Keys);
            match stop
            case Some(o) => run == Run(imported, o)
            case None => run == Run(imported, ImportOutcome.Completed(|rows|, |rows|))
    ensures |added| == |imported| && db.allChallenges == old(db.allChallenges) + added
    ensures forall j :: 0 <= j < |added| ==> added[j] != null && added[j].data == imported[j]
    ensures store.assets.Keys == old(store.assets).Keys + PathsOf(outputFolder, imported)
    ensures store.saveCount == old(store.saveCount) + Checkpoints(|imported|)
  {
    ghost var existing0 := store.assets.Keys;
    ghost var existing := existing0;
    added, imported := [], [];
    for i := 0 to |rows|
      invariant i == |added| == |imported|
      invariant db.allChallenges == old(db.allChallenges) + added
      invariant forall j :: 0 <= j < |added| ==> added[j] != null && added[j].data == imported[j]
      invariant store.assets.Keys == existing
      invariant existing == existing0 + PathsOf(outputFolder, imported)
      invariant store.saveCount == old(store.saveCount) + Checkpoints(i)
      invariant var total := RunFrom(decoded, 0, outputFolder, op, existing0);
                var rest := RunFrom(decoded, i, outputFolder, op, existing);
                total.outcome == rest.outcome && total.imported == imported + rest.imported
    {
      ghost var step, asset;
      stop, step, asset := ImportRow(rows, decoded, i, outputFolder, fromJson, op, db, store);
      if stop.Some? {
        RunStops(decoded, i, outputFolder, op, existing);
        assert imported + [] == imported;
        return;
      }
      ghost var d := step.data;
      RunAdvance(decoded, i, outputFolder, op, existing, d, imported);
      Lists.AppendAssoc(old(db.allChallenges), added, [asset]);
      PathsOfSnoc(outputFolder, imported, d);
      SetUnionAssoc(existing0, PathsOf(outputFolder, imported), {AssetPath(outputFolder, d)});
      forall j | 0 <= j < i + 1
        ensures (added + [asset])[j] != null && (added + [asset])[j].data == (imported + [d])[j]
      {
        if j < i {
          assert (added + [asset])[j] == added[j] && (imported + [d])[j] == imported[j];
        }
      }
      added := added + [asset];
      imported := imported + [d];
      existing := existing + {AssetPath(outputFolder, d)};
    }
    assert imported + [] == imported;
    stop := None;
  }

  /** The loop of ExecuteImport and the final save, made only by a run
      that reaches the end. */
  method ImportRows(rows: seq<Row>, outputFolder: string, fromJson: string -> JsonOutcome, op: Operator,
                    db: ChallengeMasterDatabase, store: AssetDatabase)
    returns (outcome: ImportOutcome, ghost added: seq<ChallengeAsset?>)
    modifies db, store
    ensures var run := RunFrom(DecodeAll(rows, fromJson), 0, outputFolder, op, old(store.assets).Keys);
            outcome == run.outcome &&
            |added| == |run.imported| && db.allChallenges == old(db.allChallenges) + added &&
            (forall j :: 0 <= j < |added| ==> added[j] != null && added[j].data == run.imported[j]) &&
            store.assets.Keys == old(store.assets).Keys + PathsOf(outputFolder, run.imported) &&
            store.saveCount == old(store.saveCount) + Checkpoints(|run.imported|) +
                               (if outcome.Completed? then 1 else 0)
  {
    var stop;
    ghost var imported;
    stop, imported, added := ImportLoop(rows, DecodeAll(rows, fromJson), outputFolder, fromJson, op, db, store);
    if stop.Some? {
      outcome := stop.value;
    } else {
      store.SaveAssets();
      outcome := ImportOutcome.Completed(|rows|, |rows|);
    }
  }

  /** A row that stops the run ends it there, and never as completed. */
  lemma RunStops(decoded: seq<Result<ChallengeData, string>>, i: nat, outputFolder: string, op: Operator,
                 existing: set<string>)
    requires i < |decoded| && RowStep(decoded[i], i, outputFolder, op, existing).Stop?
    ensures var o := RowStep(decoded[i], i, outputFolder, op, existing).outcome;
            !o.Completed? && RunFrom(decoded, i, outputFolder, op, existing) == Run([], o)
  {
  }

  /** One imported row moves the run on by one row. */
  lemma RunAdvance(decoded: seq<Result<ChallengeData, string>>, i: nat, outputFolder: string, op: Operator,
                   existing: set<string>, d: ChallengeData, prefix: seq<ChallengeData>)
    requires i < |decoded| && RowStep(decoded[i], i, outputFolder, op, existing) == Import(d)
    ensures var rest := RunFrom(decoded, i + 1, outputFolder, op, existing + {AssetPath(outputFolder, d)});
            var run := RunFrom(decoded, i, outputFolder, op, existing);
            run.outcome == rest.outcome && prefix + run.imported == (prefix + [d]) + rest.imported
  {
  }

  /** One more imported row adds its asset path. */
  lemma PathsOfSnoc(outputFolder: string, imported: seq<ChallengeData>, d: ChallengeData)
    ensures PathsOf(outputFolder, imported + [d]) == PathsOf(outputFolder, imported) + {AssetPath(outputFolder, d)}
  {
    assert (imported + [d])[..|imported|] == imported;
  }

  lemma SetUnionAssoc<T>(a: set<T>, b: set<T>, c: set<T>)
    ensures (a + b) + c == a + (b + c)
  {
  }

  /** The paths of the imported rows are exactly the asset paths of
      their data. */
  lemma {:induction false} PathsOfMembers(outputFolder: string, imported: seq<ChallengeData>, p: string)
    ensures p in PathsOf(outputFolder, imported) <==>
            exists j :: 0 <= j < |imported| && p == AssetPath(outputFolder, imported[j])
  {
    if |imported| > 0 {
      var init := imported[..|imported| - 1];
      PathsOfMembers(outputFolder, init, p);
      if p in PathsOf(outputFolder, init) {
        var j :| 0 <= j < |init| && p == AssetPath(outputFolder, init[j]);
        assert imported[j] == init[j];
      }
      forall j | 0 <= j < |init| && p == AssetPath(outputFolder, imported[j])
        ensures p in PathsOf(outputFolder, init)
      {
        assert imported[j] == init[j];
      }
    }
  }

  /** ExecuteImport, from the text of the selected CSV file on: a parse
      error or an empty table ends the run before anything is created;
      otherwise the output folder is made to exist and the rows are
      imported. */
  method ExecuteImport(csvText: string, outputFolder: string, fromJson: string -> JsonOutcome, op: Operator,
                       db: ChallengeMasterDatabase, store: AssetDatabase)
    returns (outcome: ImportOutcome, ghost added: seq<ChallengeAsset?>)
    modifies db, store
    ensures CsvSimpleParser.ParseText(csvText).Failure? ==>
              outcome == ParseError(CsvSimpleParser.ParseText(csvText).error)
    ensures CsvSimpleParser.ParseText(csvText) == Success([]) ==> outcome == NoDataRows
    ensures outcome.ParseError? || outcome.NoDataRows? ==>
              db.allChallenges == old(db.allChallenges) && store.assets == old(store.assets) &&
              store.saveCount == old(store.saveCount) && store.folders == old(store.folders)
    ensures CsvSimpleParser.ParseText(csvText).Success? && CsvSimpleParser.ParseText(csvText).value != [] ==>
              var run := RunFrom(DecodeAll(CsvSimpleParser.ParseText(csvText).value, fromJson), 0, outputFolder, op,
                                 old(store.assets).Keys);
              outcome == run.outcome &&
              |added| == |run.imported| && db.allChallenges == old(db.allChallenges) + added &&
              (forall j :: 0 <= j < |added| ==> added[j] != null && added[j].data == run.imported[j]) &&
              store.assets.Keys == old(store.assets).Keys + PathsOf(outputFolder, run.imported) &&
              store.saveCount == old(store.saveCount) + Checkpoints(|run.imported|) +
                                 (if outcome.Completed? then 1 else 0)
  {
    var parsed := CsvSimpleParser.ParseCsv(csvText);
    added := [];
    if parsed.Failure? {
      return ParseError(parsed.error), added;
    }
    var rows := parsed.value;
    if |rows| == 0 {
      return NoDataRows, added;
    }
    if !store.IsValidFolder(outputFolder) {
      EnsureFolderExists(store, outputFolder);
    }
    RunStopReason(DecodeAll(rows, fromJson), 0, outputFolder, op, store.assets.Keys);
    outcome, added := ImportRows(rows, outputFolder, fromJson, op, db, store);
  }

  // ---------------------------------------------------------------------
  // What a run does

  /** The outcome counts exactly the rows imported before it. */
  lemma {:induction false} RunCount(decoded: seq<Result<ChallengeData, string>>, i: nat, outputFolder: string,
                                    op: Operator, existing: set<string>)
    requires i <= |decoded|
    ensures var run := RunFrom(decoded, i, outputFolder, op, existing);
            ImportedCount(run.outcome) == i + |run.imported| && i + |run.imported| <= |decoded|
    decreases |decoded| - i
  {
    if i < |decoded| {
      match RowStep(decoded[i], i, outputFolder, op, existing)
      case Stop(o) =>
      case Import(d) =>
        RunCount(decoded, i + 1, outputFolder, op, existing + {AssetPath(outputFolder, d)});
    }
  }

  /** Every imported row was not cancelled and decoded to the data
      imported for it. */
  lemma {:induction false} RunImportsDecoded(decoded: seq<Result<ChallengeData, string>>, i: nat,
                                             outputFolder: string, op: Operator, existing: set<string>)
    requires i <= |decoded|
    ensures var run := RunFrom(decoded, i, outputFolder, op, existing);
            i + |run.imported| <= |decoded| &&
            forall k :: i <= k < i + |run.imported| ==>
              !op.cancel(k) && decoded[k] == Success(run.imported[k - i])
    decreases |decoded| - i
  {
    if i < |decoded| {
      match RowStep(decoded[i], i, outputFolder, op, existing)
      case Stop(o) =>
      case Import(d) =>
        var existing' := existing + {AssetPath(outputFolder, d)};
        RunImportsDecoded(decoded, i + 1, outputFolder, op, existing');
        var rest := RunFrom(decoded, i + 1, outputFolder, op, existing').imported;
        assert RunFrom(decoded, i, outputFolder, op, existing).imported == [d] + rest;
        assert decoded[i] == Success(d);
    }
  }

  /** A run that stops early stops for the reason its outcome names, at
      the row after the last one imported. */
  lemma {:induction false} RunStopReason(decoded: seq<Result<ChallengeData, string>>, i: nat,
                                         outputFolder: string, op: Operator, existing: set<string>)
    requires i <= |decoded|
    ensures var run := RunFrom(decoded, i, outputFolder, op, existing);
            var k := i + |run.imported|;
            (run.outcome.Completed? ==> k == |decoded| && run.outcome == ImportOutcome.Completed(|decoded|, |decoded|)) &&
            (run.outcome.Cancelled? ==> k < |decoded| && op.cancel(k)) &&
            (run.outcome.RowFailed? ==>
               k < |decoded| && !op.cancel(k) && decoded[k] == Failure(run.outcome.message)) &&
            (run.outcome.OverwriteDeclined? ==>
               k < |decoded| && !op.cancel(k) && !op.overwrite(k) && decoded[k].Success? &&
               decoded[k].value.challengeId == run.outcome.challengeId) &&
            !run.outcome.ParseError? && !run.outcome.NoDataRows?
    decreases |decoded| - i
  {
    if i < |decoded| {
      match RowStep(decoded[i], i, outputFolder, op, existing)
      case Stop(o) =>
      case Import(d) =>
        RunStopReason(decoded, i + 1, outputFolder, op, existing + {AssetPath(outputFolder, d)});
    }
  }

  /** With no cancel, no overwrite to decline and rows that all decode, the
      run imports every row. */
  lemma {:induction false} RunCompletes(decoded: seq<Result<ChallengeData, string>>, i: nat, outputFolder: string,
                                        op: Operator, existing: set<string>)
    requires i <= |decoded|
    requires forall j :: i <= j < |decoded| ==> !op.cancel(j) && op.overwrite(j) && decoded[j].Success?
    ensures RunFrom(decoded, i, outputFolder, op, existing).outcome == ImportOutcome.Completed(|decoded|, |decoded|)
    ensures |RunFrom(decoded, i, outputFolder, op, existing).imported| == |decoded| - i
    decreases |decoded| - i
  {
    if i < |decoded| {
      var d := decoded[i].value;
      RunCompletes(decoded, i + 1, outputFolder, op, existing + {AssetPath(outputFolder, d)});
    }
  }

  /** The intermediate saves after n >= 1 rows are (n - 1) / 100. */
  lemma {:induction false} CheckpointsCount(n: nat)
    requires n >= 1
    ensures Checkpoints(n) == (n - 1) / 100
  {
    if n > 1 {
      CheckpointsCount(n - 1);
      var m := n - 2;
      assert (m + 1) / 100 == m / 100 + (if (m + 1) % 100 == 0 then 1 else 0);
    }
  }
}
