/** Turning a set of saved files into a protocol source. The file reader,
    the role analyzer and the config analyzer are foreign: their combined
    outcome is an input here. The fast path for already-validated files
    classifies each JSON document itself and is modelled in full. */
module ProtocolReader {
  import opened Common

  /** `Path`: a directory (its components) and a file name. */
  datatype FilePath = FilePath(directory: seq<string>, name: string)

  /** `directory / name`. */
  function Join(directory: seq<string>, name: string): FilePath
  {
    FilePath(directory, name)
  }

  /** Parsed JSON values, as far as the reader looks into them. */
  datatype Json =
    | JString(s: string)
    | JInt(i: int)
    | JObject(fields: map<string, Json>)
    | JOther

  /** A top-level JSON document (`Dict[str, Any]`). */
  type Document = map<string, Json>

  datatype FileRole = Main | Labware

  datatype ProtocolSourceFile = ProtocolSourceFile(path: FilePath, role: FileRole)

  datatype ProtocolConfig =
    | JsonProtocolConfig(schemaVersion: Json)
    | PythonProtocolConfig(apiVersion: string)

  datatype LabwareDefinitionsReference =
    | TrivialLabwareDefinitions(definitions: seq<Json>)
    | JsonParsingLabwareDefinitions(unvalidatedProtocol: Document)

  datatype ProtocolSource = ProtocolSource(
    directory: Option<seq<string>>,
    mainFile: FilePath,
    files: seq<ProtocolSourceFile>,
    config: ProtocolConfig,
    metadata: Json,
    robotType: Json,
    labwareDefinitions: LabwareDefinitionsReference)

  /** A file as the role analyzer reports it; in-memory inputs have no path. */
  datatype RoleAnalysisFile = RoleAnalysisFile(name: string, path: Option<FilePath>, role: FileRole)

  datatype RoleAnalysis = RoleAnalysis(mainFile: RoleAnalysisFile, labwareFiles: seq<RoleAnalysisFile>,
                                       labwareDefinitions: seq<Json>)

  datatype ConfigAnalysis = ConfigAnalysis(config: ProtocolConfig, metadata: Json, robotType: Json)

  datatype AnalysisError =
    | FileReadError(message: string)
    | RoleAnalysisError(message: string)
    | ConfigAnalysisError(message: string)

  /** What reading the files, analysing their roles and analysing the main
      file's config come to: the first error raised, or both analyses. */
  datatype Analysis =
    | Analyzed(roles: RoleAnalysis, config: ConfigAnalysis)
    | AnalysisFailed(error: AnalysisError)

  datatype AssertionKind = PathMissing | NotJson(path: FilePath) | MultipleMainFiles | NoMainFiles

  datatype ReaderError =
    | ProtocolFilesInvalidError(message: string)
    | AssertionError(kind: AssertionKind)
    | KeyError(key: string)
    | TypeError       // indexing into a value that is not an object
    | AttributeError  // `.startswith` on a value that is not a string

  function ErrorMessage(e: AnalysisError): string
  {
    match e
    case FileReadError(m) => m
    case RoleAnalysisError(m) => m
    case ConfigAnalysisError(m) => m
  }

  /** `[main_file, *labware_files]`. */
  function AllFiles(roles: RoleAnalysis): (all: seq<RoleAnalysisFile>)
    ensures |all| == 1 + |roles.labwareFiles| && all[0] == roles.mainFile
    ensures all[1..] == roles.labwareFiles
  {
    [roles.mainFile] + roles.labwareFiles
  }

  /** `read_and_save`, once the files are written under `directory`. */
  function ReadAndSave(analysis: Analysis, directory: seq<string>): (r: Result<ProtocolSource, ReaderError>)
    ensures analysis.AnalysisFailed? <==> r.Failure?
    ensures analysis.AnalysisFailed? ==> r.error == ProtocolFilesInvalidError(ErrorMessage(analysis.error))
    ensures r.Success? ==>
      var roles := analysis.roles;
      && r.value.directory == Some(directory)
      && r.value.mainFile == Join(directory, roles.mainFile.name)
      && |r.value.files| == 1 + |roles.labwareFiles|
      && r.value.files[0] == ProtocolSourceFile(Join(directory, roles.mainFile.name), roles.mainFile.role)
      && (forall i :: 0 <= i < |roles.labwareFiles| ==>
            r.value.files[i + 1] == ProtocolSourceFile(Join(directory, roles.labwareFiles[i].name), roles.labwareFiles[i].role))
      && r.value.config == analysis.config.config
      && r.value.metadata == analysis.config.metadata
      && r.value.robotType == analysis.config.robotType
      && r.value.labwareDefinitions == TrivialLabwareDefinitions(roles.labwareDefinitions)
  {
    match analysis
    case AnalysisFailed(e) => Failure(ProtocolFilesInvalidError(ErrorMessage(e)))
    case Analyzed(roles, config) =>
      var all := AllFiles(roles);
      Success(ProtocolSource(
        directory := Some(directory),
        mainFile := Join(directory, roles.mainFile.name),
        files := seq(|all|, i requires 0 <= i < |all| => ProtocolSourceFile(Join(directory, all[i].name), all[i].role)),
        config := config.config,
        metadata := config.metadata,
        robotType := config.robotType,
        labwareDefinitions := TrivialLabwareDefinitions(roles.labwareDefinitions)))
  }

  /** Every file the role analyzer reports has a path on disk. */
  predicate AllHavePaths(all: seq<RoleAnalysisFile>)
  {
    forall i :: 0 <= i < |all| ==> all[i].path.Some?
  }

  /** `read_saved`: the files keep their own paths; a file without one
      fails the `isinstance(..., Path)` assertions. */
  function ReadSaved(analysis: Analysis, directory: Option<seq<string>>): (r: Result<ProtocolSource, ReaderError>)
    ensures analysis.AnalysisFailed? ==> r == Failure(ProtocolFilesInvalidError(ErrorMessage(analysis.error)))
    ensures analysis.Analyzed? ==> (r.Success? <==> AllHavePaths(AllFiles(analysis.roles)))
    ensures analysis.Analyzed? && !AllHavePaths(AllFiles(analysis.roles)) ==> r == Failure(AssertionError(PathMissing))
    ensures r.Success? ==>
      var all := AllFiles(analysis.roles);
      && r.value.directory == directory
      && r.value.mainFile == analysis.roles.mainFile.path.value
      && |r.value.files| == |all|
      && (forall i :: 0 <= i < |all| ==> r.value.files[i] == ProtocolSourceFile(all[i].path.value, all[i].role))
      && r.value.metadata == analysis.config.metadata
      && r.value.robotType == analysis.config.robotType
      && r.value.config == analysis.config.config
      && r.value.labwareDefinitions == TrivialLabwareDefinitions(analysis.roles.labwareDefinitions)
  {
    match analysis
    case AnalysisFailed(e) => Failure(ProtocolFilesInvalidError(ErrorMessage(e)))
    case Analyzed(roles, config) =>
      var all := AllFiles(roles);
      if roles.mainFile.path.None? || !AllHavePaths(all) then Failure(AssertionError(PathMissing))
      else
        Success(ProtocolSource(
          directory := directory,
          mainFile := roles.mainFile.path.value,
          files := seq(|all|, i requires 0 <= i < |all| => ProtocolSourceFile(all[i].path.value, all[i].role)),
          config := config.config,
          metadata := config.metadata,
          robotType := config.robotType,
          labwareDefinitions := TrivialLabwareDefinitions(roles.labwareDefinitions)))
  }

  /** A saved file and the document `json.load` gives for it. */
  datatype InputFile = InputFile(path: FilePath, contents: Document)

  const SharedSchemaKey := "$otSharedSchema"
  const ProtocolSchemaPrefix := "#/protocol/schemas"

  predicate IsPythonName(name: string)
  {
    EndsWith(Lower(name), ".py")
  }

  predicate IsJsonName(name: string)
  {
    EndsWith(Lower(name), ".json")
  }

  /** `json_contents["$otSharedSchema"].startswith("#/protocol/schemas")`,
      with a missing key meaning "no". */
  function LooksLikeProtocol(contents: Document): (r: Result<bool, ReaderError>)
    ensures SharedSchemaKey !in contents ==> r == Success(false)
    ensures r == Success(true) <==>
      SharedSchemaKey in contents && contents[SharedSchemaKey].JString?
      && StartsWith(contents[SharedSchemaKey].s, ProtocolSchemaPrefix)
    ensures r.Failure? <==> SharedSchemaKey in contents && !contents[SharedSchemaKey].JString?
  {
    if SharedSchemaKey !in contents then Success(false)
    else match contents[SharedSchemaKey]
      case JString(s) => Success(StartsWith(s, ProtocolSchemaPrefix))
      case _ => Failure(AttributeError)
  }

  datatype MainFileInfo = MainFileInfo(path: FilePath, unvalidatedContents: Document,
                                       schemaVersion: Json, metadata: Json, robotType: Json)

  /** The minimal extraction from a main file: schema version, metadata and
      `robot.model`, in that order. */
  function ExtractMainFileInfo(path: FilePath, contents: Document): (r: Result<MainFileInfo, ReaderError>)
    ensures r.Success? <==>
      "schemaVersion" in contents && "metadata" in contents && "robot" in contents
      && contents["robot"].JObject? && "model" in contents["robot"].fields
    ensures r.Success? ==> r.value == MainFileInfo(path, contents, contents["schemaVersion"],
                                                   contents["metadata"], contents["robot"].fields["model"])
  {
    if "schemaVersion" !in contents then Failure(KeyError("schemaVersion"))
    else if "metadata" !in contents then Failure(KeyError("metadata"))
    else if "robot" !in contents then Failure(KeyError("robot"))
    else if !contents["robot"].JObject? then Failure(TypeError)
    else if "model" !in contents["robot"].fields then Failure(KeyError("model"))
    else Success(MainFileInfo(path, contents, contents["schemaVersion"], contents["metadata"],
                              contents["robot"].fields["model"]))
  }

  predicate IsMainDocument(contents: Document)
  {
    LooksLikeProtocol(contents) == Success(true)
  }

  /** What the classification loop carries from one file to the next. */
  datatype ScanState = ScanState(mainFileInfo: Option<MainFileInfo>, sourceFiles: seq<ProtocolSourceFile>)

  /** One iteration of the classification loop. */
  function ScanStep(st: ScanState, f: InputFile): (r: Result<ScanState, ReaderError>)
    ensures !IsJsonName(f.path.name) ==> r == Failure(AssertionError(NotJson(f.path)))
    ensures IsJsonName(f.path.name) && LooksLikeProtocol(f.contents).Failure? ==> r == Failure(AttributeError)
    ensures IsJsonName(f.path.name) && IsMainDocument(f.contents) && st.mainFileInfo.Some? ==>
      r == Failure(AssertionError(MultipleMainFiles))
    ensures r.Success? <==>
      IsJsonName(f.path.name) && LooksLikeProtocol(f.contents).Success?
      && (IsMainDocument(f.contents) ==> st.mainFileInfo.None? && ExtractMainFileInfo(f.path, f.contents).Success?)
    ensures r.Success? ==>
      r.value.sourceFiles == st.sourceFiles + [ProtocolSourceFile(f.path, if IsMainDocument(f.contents) then Main else Labware)]
    ensures r.Success? ==>
      r.value.mainFileInfo == if IsMainDocument(f.contents) then Some(ExtractMainFileInfo(f.path, f.contents).value)
                              else st.mainFileInfo
  {
    if !IsJsonName(f.path.name) then Failure(AssertionError(NotJson(f.path)))
    else match LooksLikeProtocol(f.contents)
      case Failure(e) => Failure(e)
      case Success(looksLikeProtocol) =>
        if looksLikeProtocol then
          if st.mainFileInfo.Some? then Failure(AssertionError(MultipleMainFiles))
          else match ExtractMainFileInfo(f.path, f.contents)
            case Failure(e) => Failure(e)
            case Success(info) => Success(ScanState(Some(info), st.sourceFiles + [ProtocolSourceFile(f.path, Main)]))
        else Success(ScanState(st.mainFileInfo, st.sourceFiles + [ProtocolSourceFile(f.path, Labware)]))
  }

  /** The loop over `files`, left to right, stopping at the first error. */
  function Scan(files: seq<InputFile>): (r: Result<ScanState, ReaderError>)
    ensures files == [] ==> r == Success(ScanState(None, []))
    ensures r.Success? ==> |r.value.sourceFiles| == |files|
    ensures r.Success? ==> forall i :: 0 <= i < |files| ==> r.value.sourceFiles[i].path == files[i].path
  {
    if files == [] then Success(ScanState(None, []))
    else match Scan(files[..|files| - 1])
      case Failure(e) => Failure(e)
      case Success(st) => ScanStep(st, files[|files| - 1])
  }

  /** The source assembled once the loop has finished. */
  function Assemble(st: ScanState, directory: Option<seq<string>>): (r: Result<ProtocolSource, ReaderError>)
    ensures r.Failure? <==> st.mainFileInfo.None?
    ensures r.Failure? ==> r.error == AssertionError(NoMainFiles)
    ensures r.Success? ==>
      var info := st.mainFileInfo.value;
      && r.value.directory == directory && r.value.mainFile == info.path && r.value.files == st.sourceFiles
      && r.value.config == JsonProtocolConfig(info.schemaVersion)
      && r.value.metadata == info.metadata && r.value.robotType == info.robotType
      && r.value.labwareDefinitions == JsonParsingLabwareDefinitions(info.unvalidatedContents)
  {
    if st.mainFileInfo.None? then Failure(AssertionError(NoMainFiles))
    else
      var info := st.mainFileInfo.value;
      Success(ProtocolSource(
        directory := directory,
        mainFile := info.path,
        files := st.sourceFiles,
        config := JsonProtocolConfig(info.schemaVersion),
        metadata := info.metadata,
        robotType := info.robotType,
        labwareDefinitions := JsonParsingLabwareDefinitions(info.unvalidatedContents)))
  }

  predicate AnyPythonFile(files: seq<InputFile>)
  {
    exists i :: 0 <= i < |files| && IsPythonName(files[i].path.name)
  }

  /** `read_saved_prevalidated`; `saved` is what `read_saved` would find
      for the same files. */
  method ReadSavedPrevalidated(files: seq<InputFile>, directory: Option<seq<string>>, saved: Analysis)
    returns (r: Result<ProtocolSource, ReaderError>)
    ensures AnyPythonFile(files) ==> r == ReadSaved(saved, directory)
    ensures !AnyPythonFile(files) ==>
      r == match Scan(files) { case Failure(e) => Failure(e) case Success(st) => Assemble(st, directory) }
  {
    var mainFileInfo: Option<MainFileInfo> := None;
    var protocolSourceFiles: seq<ProtocolSourceFile> := [];

    if AnyPythonFile(files) {
      // Python protocols are parsed the old way
      return ReadSaved(saved, directory);
    }

    var i := 0;
    while i < |files|
      invariant 0 <= i <= |files|
      invariant Scan(files[..i]) == Success(ScanState(mainFileInfo, protocolSourceFiles))
    {
      var filePath := files[i].path;
      var jsonContents := files[i].contents;
      assert files[..i + 1][..i] == files[..i];
      if !IsJsonName(filePath.name) {
        ScanStopsAtFirstError(files, i + 1);
        return Failure(AssertionError(NotJson(filePath)));
      }
      var looks := LooksLikeProtocol(jsonContents);
      if looks.Failure? {
        ScanStopsAtFirstError(files, i + 1);
        return Failure(looks.error);
      }
      if looks.value {
        if mainFileInfo.Some? {
          ScanStopsAtFirstError(files, i + 1);
          return Failure(AssertionError(MultipleMainFiles));
        }
        var info := ExtractMainFileInfo(filePath, jsonContents);
        if info.Failure? {
          ScanStopsAtFirstError(files, i + 1);
          return Failure(info.error);
        }
        mainFileInfo := Some(info.value);
        protocolSourceFiles := protocolSourceFiles + [ProtocolSourceFile(filePath, Main)];
      } else {
        protocolSourceFiles := protocolSourceFiles + [ProtocolSourceFile(filePath, Labware)];
      }
      i := i + 1;
    }
    assert files[..|files|] == files;

    if mainFileInfo.None? {
      return Failure(AssertionError(NoMainFiles));
    }
    r := Assemble(ScanState(mainFileInfo, protocolSourceFiles), directory);
  }

  /** Once a prefix of the files raises, so does the whole loop, with the
      same error. */
  lemma {:induction false} ScanStopsAtFirstError(files: seq<InputFile>, k: int)
    requires 0 <= k <= |files| && Scan(files[..k]).Failure?
    ensures Scan(files) == Scan(files[..k])
    decreases |files| - k
  {
    if k < |files| {
      assert files[..k + 1][..k] == files[..k];
      ScanStopsAtFirstError(files, k + 1);
    } else {
      assert files[..k] == files;
    }
  }

  /** A file the loop gets past without raising: a JSON name, a readable
      schema key and, for a main file, the fields extraction needs. */
  predicate WellFormed(f: InputFile)
  {
    IsJsonName(f.path.name) && LooksLikeProtocol(f.contents).Success?
    && (LooksLikeProtocol(f.contents).value ==> ExtractMainFileInfo(f.path, f.contents).Success?)
  }

  /** The number of files that look like protocols. */
  function MainCount(files: seq<InputFile>): nat
  {
    if files == [] then 0
    else MainCount(files[..|files| - 1]) + (if IsMainDocument(files[|files| - 1].contents) then 1 else 0)
  }

  /** A successful loop lists every input file once, in input order, each
      with its role; the main file info is present exactly when a main file
      was seen, and then it is the last one seen (there is only one). */
  lemma {:induction false} ScanListsFilesInOrder(files: seq<InputFile>)
    requires Scan(files).Success?
    ensures var st := Scan(files).value;
      && |st.sourceFiles| == |files|
      && (forall i :: 0 <= i < |files| ==>
            st.sourceFiles[i].path == files[i].path
            && (st.sourceFiles[i].role == Main <==> IsMainDocument(files[i].contents)))
      && MainCount(files) <= 1
      && (st.mainFileInfo.Some? <==> MainCount(files) == 1)
      && (st.mainFileInfo.Some? ==>
            exists i :: 0 <= i < |files| && IsMainDocument(files[i].contents)
              && ExtractMainFileInfo(files[i].path, files[i].contents) == Success(st.mainFileInfo.value))
  {
    if files != [] {
      var front := files[..|files| - 1];
      var last := files[|files| - 1];
      ScanListsFilesInOrder(front);
      var st0 := Scan(front).value;
      var st := Scan(files).value;
      assert st == ScanStep(st0, last).value;
      forall i | 0 <= i < |files|
        ensures st.sourceFiles[i].path == files[i].path
        ensures st.sourceFiles[i].role == Main <==> IsMainDocument(files[i].contents)
      {
        if i < |front| {
          assert files[i] == front[i];
          assert st.sourceFiles[i] == st0.sourceFiles[i];
        }
      }
      if st0.mainFileInfo.Some? && !IsMainDocument(last.contents) {
        var j :| 0 <= j < |front| && IsMainDocument(front[j].contents)
          && ExtractMainFileInfo(front[j].path, front[j].contents) == Success(st0.mainFileInfo.value);
        assert files[j] == front[j];
      }
    }
  }

  /** Every file well formed: the loop succeeds exactly when at most one
      file looks like a protocol, and a second one stops it with "Multiple
      main files?". */
  lemma {:induction false} ScanOfWellFormedFiles(files: seq<InputFile>)
    requires forall i :: 0 <= i < |files| ==> WellFormed(files[i])
    ensures Scan(files).Success? <==> MainCount(files) <= 1
    ensures MainCount(files) >= 2 ==> Scan(files) == Failure(AssertionError(MultipleMainFiles))
    ensures Scan(files).Success? ==> (Scan(files).value.mainFileInfo.Some? <==> MainCount(files) == 1)
  {
    if files != [] {
      var front := files[..|files| - 1];
      var last := files[|files| - 1];
      assert forall i :: 0 <= i < |front| ==> front[i] == files[i];
      ScanOfWellFormedFiles(front);
      if Scan(front).Success? {
        var st0 := Scan(front).value;
        assert WellFormed(last);
        if Scan(files).Success? {
          ScanListsFilesInOrder(files);
        }
      }
    }
  }

  /** With no Python file and every file well formed, the prevalidated read
      succeeds exactly when exactly one file is a main file, fails with "No
      main files?" when none is, and otherwise names that file as main and
      takes the config's schema version from it. */
  lemma PrevalidatedNeedsExactlyOneMain(files: seq<InputFile>, directory: Option<seq<string>>)
    requires forall i :: 0 <= i < |files| ==> WellFormed(files[i])
    ensures var r := match Scan(files) { case Failure(e) => Failure(e) case Success(st) => Assemble(st, directory) };
      && (r.Success? <==> MainCount(files) == 1)
      && (MainCount(files) == 0 ==> r == Failure(AssertionError(NoMainFiles)))
      && (MainCount(files) >= 2 ==> r == Failure(AssertionError(MultipleMainFiles)))
      && (r.Success? ==>
            |r.value.files| == |files|
            && exists i :: 0 <= i < |files| && IsMainDocument(files[i].contents)
                 && r.value.mainFile == files[i].path
                 && r.value.files[i] == ProtocolSourceFile(files[i].path, Main)
                 && "schemaVersion" in files[i].contents
                 && r.value.config == JsonProtocolConfig(files[i].contents["schemaVersion"]))
  {
    ScanOfWellFormedFiles(files);
    if Scan(files).Success? {
      ScanListsFilesInOrder(files);
      var st := Scan(files).value;
      if st.mainFileInfo.Some? {
        var i :| 0 <= i < |files| && IsMainDocument(files[i].contents)
          && ExtractMainFileInfo(files[i].path, files[i].contents) == Success(st.mainFileInfo.value);
        assert WellFormed(files[i]);
      }
    }
  }

  /** A name that is not JSON stops the loop at that file: every file
      before it gets past the loop and the assertion names this one. */
  lemma {:induction false} NonJsonFileIsRejected(files: seq<InputFile>, k: int)
    requires 0 <= k < |files| && !IsJsonName(files[k].path.name)
    requires forall i :: 0 <= i < k ==> WellFormed(files[i])
    requires MainCount(files[..k]) <= 1
    ensures Scan(files[..k + 1]) == Failure(AssertionError(NotJson(files[k].path)))
  {
    var front := files[..k];
    assert files[..k + 1][..k] == front;
    assert forall i :: 0 <= i < |front| ==> front[i] == files[i];
    ScanOfWellFormedFiles(front);
  }
}
