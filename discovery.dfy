/**
 * `discover` and `parseFile`: every located scenario file is parsed and
 * becomes one suite under the engine's root descriptor, holding one scenario
 * descriptor per scenario of the file, in file order, each carrying the index
 * the file declares.
 *
 * The class path, the file system and the file contents are a `Host` value;
 * the XML reader is a parameter that yields the parsed model or nothing (when
 * it throws). Java streams are lazy, so files are parsed in the order the walk
 * yields them, and the first exception, from the walk, from a parse or from
 * the suite descriptor's constructor, aborts discovery.
 */
module Discovery {
  import opened Wrappers
  import opened Strings
  import opened ScenarioModel
  import opened UniqueIds
  import opened Naming
  import opened ScenarioDescriptors
  import opened SuiteDescriptors
  import opened Resources

  /** The root descriptor of the engine: a fixed name and the suites added to it, in order. */
  class EngineDescriptor {
    const uniqueId: UniqueId
    const displayName: string
    var children: seq<SuiteDescriptor>

    constructor (uniqueId: UniqueId, displayName: string)
      ensures this.uniqueId == uniqueId && this.displayName == displayName
      ensures children == []
    {
      this.uniqueId := uniqueId;
      this.displayName := displayName;
      children := [];
    }

    /** addChild */
    method AddChild(child: SuiteDescriptor)
      modifies this
      ensures children == old(children) + [child]
    {
      children := children + [child];
    }
  }

  const ENGINE_DISPLAY_NAME: string := "Kogito Test Scenario"

  /** The XML reader's unmarshal: the parsed model, or None when it throws an Exception (it is assumed never to throw an Error). */
  type Unmarshaller = string -> Option<ScenarioSimulationModel>

  /** What the engine reads from its process and its disk. */
  datatype Host = Host(
    classPath: Option<string>,        // the java.class.path property, if set
    pathSeparator: char,              // the path.separator property
    tree: FileTree,                   // what lies under each search root
    contents: map<string, string>)    // the text of each readable file

  const FILE_NOT_FOUND: string := "File not found, this should not happen: "
  const PARSE_ISSUE: string := "Issue on parsing file: "

  /**
   * parseFile: the DTO for the file at `path`, or a ScenarioException naming
   * the path when the file is missing, empty (the scanner finds no token), or
   * rejected by the XML reader.
   */
  function ParseFile(path: string, contents: map<string, string>, unmarshal: Unmarshaller): (r: Result<ScenarioRunnerDTO, Throwable>)
    ensures r.Success? ==> path in contents && unmarshal(contents[path]).Some?
                           && r.value == ScenarioRunnerDTO(unmarshal(contents[path]).value, path)
    ensures r.Success? <==> path in contents && contents[path] != "" && unmarshal(contents[path]).Some?
    ensures r.Failure? ==> r.error.ScenarioException? && EndsWith(r.error.message, path)
  {
    if path !in contents then
      Failure(ScenarioException(FILE_NOT_FOUND + path))
    else if contents[path] == "" then
      Failure(ScenarioException(PARSE_ISSUE + path))
    else
      match unmarshal(contents[path])
      case None => Failure(ScenarioException(PARSE_ISSUE + path))
      case Some(model) => Success(ScenarioRunnerDTO(model, path))
  }

  /** The scenario descriptors of one file, one per scenario, in file order, all built from the engine's id. */
  function ScenarioDescriptorsFor(uniqueId: UniqueId, fileName: string, dto: ScenarioRunnerDTO, scenarios: seq<ScenarioWithIndex>): (ds: seq<ScenarioDescriptor>)
    ensures |ds| == |scenarios|
  {
    seq(|scenarios|, j requires 0 <= j < |scenarios| => NewScenarioDescriptor(uniqueId, fileName, scenarios[j].index, dto, scenarios[j]))
  }

  lemma ScenarioDescriptorsForSnoc(uniqueId: UniqueId, fileName: string, dto: ScenarioRunnerDTO, scenarios: seq<ScenarioWithIndex>, j: nat)
    requires j < |scenarios|
    ensures ScenarioDescriptorsFor(uniqueId, fileName, dto, scenarios[..j + 1])
         == ScenarioDescriptorsFor(uniqueId, fileName, dto, scenarios[..j])
            + [NewScenarioDescriptor(uniqueId, fileName, scenarios[j].index, dto, scenarios[j])]
  {
  }

  /** The suite discovery builds for one parsed file, or what its constructor throws. */
  function SuiteFor(uniqueId: UniqueId, dto: ScenarioRunnerDTO, suffix: string): Result<SuiteDescriptor, Throwable> {
    var fileName := ShortName(dto.fileName, suffix);
    match NewSuiteDescriptor(uniqueId, fileName)
    case Failure(e) => Failure(e)
    case Success(suite) => Success(suite.(children := ScenarioDescriptorsFor(uniqueId, fileName, dto, dto.model.scenarioWithIndices)))
  }

  /** What discover does with one located path: parse it, then build its suite. */
  function SuiteOf(uniqueId: UniqueId, path: string, contents: map<string, string>, unmarshal: Unmarshaller, suffix: string): Result<SuiteDescriptor, Throwable> {
    match ParseFile(path, contents, unmarshal)
    case Failure(e) => Failure(e)
    case Success(dto) => SuiteFor(uniqueId, dto, suffix)
  }

  /** Handles the paths in order; the first failure is the result. */
  function BuildSuites(uniqueId: UniqueId, paths: seq<string>, contents: map<string, string>, unmarshal: Unmarshaller, suffix: string): Result<seq<SuiteDescriptor>, Throwable> {
    if paths == [] then Success([])
    else
      match BuildSuites(uniqueId, paths[..|paths| - 1], contents, unmarshal, suffix)
      case Failure(e) => Failure(e)
      case Success(suites) =>
        match SuiteOf(uniqueId, paths[|paths| - 1], contents, unmarshal, suffix)
        case Failure(e) => Failure(e)
        case Success(suite) => Success(suites + [suite])
  }

  /** What discovery produces: the root's suites, or the exception that aborts it. */
  function Discovered(uniqueId: UniqueId, host: Host, unmarshal: Unmarshaller, ext: string, suffix: string): Result<seq<SuiteDescriptor>, Throwable> {
    match ResourcesByExtension(host.classPath, host.pathSeparator, host.tree, ext)
    case Failure(e) => Failure(e)
    case Success(stream) =>
      match BuildSuites(uniqueId, stream.paths, host.contents, unmarshal, suffix)
      case Failure(e) => Failure(e)
      case Success(suites) => if stream.stop.Some? then Failure(stream.stop.value) else Success(suites)
  }

  /**
   * One located path fails exactly when its file does not parse, with the
   * parse error, or when its short name is blank, with the constructor's error;
   * otherwise it gives the suite built from the parsed file.
   */
  lemma SuiteOfOutcome(uniqueId: UniqueId, path: string, contents: map<string, string>, unmarshal: Unmarshaller, suffix: string)
    ensures var r := SuiteOf(uniqueId, path, contents, unmarshal, suffix);
            var parsed := ParseFile(path, contents, unmarshal);
            && (parsed.Failure? ==> r == Failure(parsed.error))
            && (parsed.Success? && IsBlank(ShortName(path, suffix)) ==> r == Failure(BLANK_SEGMENT_VALUE))
            && (parsed.Success? && !IsBlank(ShortName(path, suffix)) ==> r.Success? && Success(r.value) == SuiteFor(uniqueId, parsed.value, suffix))
  {
  }

  /** Handling one more path: the prefix's outcome, extended by that path's suite. */
  lemma BuildSuitesStep(uniqueId: UniqueId, paths: seq<string>, i: nat, contents: map<string, string>, unmarshal: Unmarshaller, suffix: string)
    requires i < |paths|
    requires BuildSuites(uniqueId, paths[..i], contents, unmarshal, suffix).Success?
    ensures SuiteOf(uniqueId, paths[i], contents, unmarshal, suffix).Failure? ==>
              BuildSuites(uniqueId, paths[..i + 1], contents, unmarshal, suffix) == Failure(SuiteOf(uniqueId, paths[i], contents, unmarshal, suffix).error)
    ensures SuiteOf(uniqueId, paths[i], contents, unmarshal, suffix).Success? ==>
              BuildSuites(uniqueId, paths[..i + 1], contents, unmarshal, suffix)
              == Success(BuildSuites(uniqueId, paths[..i], contents, unmarshal, suffix).value + [SuiteOf(uniqueId, paths[i], contents, unmarshal, suffix).value])
  {
    assert paths[..i + 1][..i] == paths[..i];
  }

  /** A failure on a prefix of the paths is the failure of the whole. */
  lemma {:induction false} BuildSuitesPrefixFailure(uniqueId: UniqueId, paths: seq<string>, k: nat, contents: map<string, string>, unmarshal: Unmarshaller, suffix: string)
    requires k <= |paths|
    requires BuildSuites(uniqueId, paths[..k], contents, unmarshal, suffix).Failure?
    ensures BuildSuites(uniqueId, paths, contents, unmarshal, suffix) == BuildSuites(uniqueId, paths[..k], contents, unmarshal, suffix)
    decreases |paths| - k
  {
    if k < |paths| {
      assert paths[..k + 1][..k] == paths[..k];
      BuildSuitesPrefixFailure(uniqueId, paths, k + 1, contents, unmarshal, suffix);
    } else {
      assert paths[..k] == paths;
    }
  }

  /** When every path is handled, there is one suite per path, in order, built from that path's file. */
  lemma {:induction false} BuildSuitesSuccess(uniqueId: UniqueId, paths: seq<string>, contents: map<string, string>, unmarshal: Unmarshaller, suffix: string)
    requires BuildSuites(uniqueId, paths, contents, unmarshal, suffix).Success?
    ensures var suites := BuildSuites(uniqueId, paths, contents, unmarshal, suffix).value;
            && |suites| == |paths|
            && forall i :: 0 <= i < |paths| ==> SuiteOf(uniqueId, paths[i], contents, unmarshal, suffix) == Success(suites[i])
  {
    if paths != [] {
      var init := paths[..|paths| - 1];
      BuildSuitesSuccess(uniqueId, init, contents, unmarshal, suffix);
    }
  }

  lemma {:induction false} PrefixBuilds(uniqueId: UniqueId, paths: seq<string>, k: nat, contents: map<string, string>, unmarshal: Unmarshaller, suffix: string)
    requires k <= |paths|
    requires forall i :: 0 <= i < k ==> SuiteOf(uniqueId, paths[i], contents, unmarshal, suffix).Success?
    ensures BuildSuites(uniqueId, paths[..k], contents, unmarshal, suffix).Success?
  {
    if k > 0 {
      assert paths[..k][..k - 1] == paths[..k - 1];
      PrefixBuilds(uniqueId, paths, k - 1, contents, unmarshal, suffix);
    }
  }

  /**
   * One suite per located file, in the order the walk yields them: discovery
   * succeeds only when the walk ends normally and every file parses and gets
   * its suite, and then suite `i` is the one built from file `i`.
   */
  lemma DiscoveredSuites(uniqueId: UniqueId, host: Host, unmarshal: Unmarshaller, ext: string, suffix: string)
    requires Discovered(uniqueId, host, unmarshal, ext, suffix).Success?
    ensures var resources := ResourcesByExtension(host.classPath, host.pathSeparator, host.tree, ext);
            var suites := Discovered(uniqueId, host, unmarshal, ext, suffix).value;
            && resources.Success? && resources.value.stop.None?
            && |suites| == |resources.value.paths|
            && forall i :: 0 <= i < |suites| ==>
                 ParseFile(resources.value.paths[i], host.contents, unmarshal).Success?
                 && SuiteFor(uniqueId, ParseFile(resources.value.paths[i], host.contents, unmarshal).value, suffix) == Success(suites[i])
  {
    var stream := ResourcesByExtension(host.classPath, host.pathSeparator, host.tree, ext).value;
    BuildSuitesSuccess(uniqueId, stream.paths, host.contents, unmarshal, suffix);
  }

  /**
   * The converse: when the walk ends normally and every located file parses and
   * gets its suite, discovery succeeds, with one suite per file.
   */
  lemma DiscoverySucceedsWhenNothingFails(uniqueId: UniqueId, host: Host, unmarshal: Unmarshaller, ext: string, suffix: string)
    requires ResourcesByExtension(host.classPath, host.pathSeparator, host.tree, ext).Success?
    requires ResourcesByExtension(host.classPath, host.pathSeparator, host.tree, ext).value.stop.None?
    requires var paths := ResourcesByExtension(host.classPath, host.pathSeparator, host.tree, ext).value.paths;
             forall i :: 0 <= i < |paths| ==> SuiteOf(uniqueId, paths[i], host.contents, unmarshal, suffix).Success?
    ensures Discovered(uniqueId, host, unmarshal, ext, suffix).Success?
    ensures |Discovered(uniqueId, host, unmarshal, ext, suffix).value|
         == |ResourcesByExtension(host.classPath, host.pathSeparator, host.tree, ext).value.paths|
  {
    var paths := ResourcesByExtension(host.classPath, host.pathSeparator, host.tree, ext).value.paths;
    PrefixBuilds(uniqueId, paths, |paths|, host.contents, unmarshal, suffix);
    assert paths[..|paths|] == paths;
    BuildSuitesSuccess(uniqueId, paths, host.contents, unmarshal, suffix);
  }

  /**
   * The suite of one file: when the short name is blank, the constructor's
   * error; otherwise its id is the engine's id plus the short name, its display
   * name the short name, and it has one scenario descriptor per scenario of the
   * file, in order, carrying that scenario and its index verbatim. The scenario
   * ids extend the engine's id, not the suite's, so they sit beside the suite's
   * id and never below it.
   */
  lemma SuiteForShape(uniqueId: UniqueId, dto: ScenarioRunnerDTO, suffix: string)
    ensures var r := SuiteFor(uniqueId, dto, suffix);
            var name := ShortName(dto.fileName, suffix);
            && (r.Failure? <==> IsBlank(name))
            && (r.Failure? ==> r.error == BLANK_SEGMENT_VALUE)
    ensures var r := SuiteFor(uniqueId, dto, suffix);
            var name := ShortName(dto.fileName, suffix);
            var scenarios := dto.model.scenarioWithIndices;
            r.Success? ==>
            var s := r.value;
            && s.uniqueId == uniqueId + [Segment(SEGMENT_TYPE, name)]
            && s.displayName == name
            && s.Type() == Container
            && |s.children| == |scenarios|
            && forall j :: 0 <= j < |scenarios| ==>
                 && s.children[j].index == scenarios[j].index
                 && s.children[j].scenarioWithIndex == scenarios[j]
                 && s.children[j].scenarioRunnerDTO == dto
                 && s.children[j].fileName == name
                 && s.children[j].uniqueId == uniqueId + [Segment(SEGMENT_TYPE, name + DecimalString(scenarios[j].index))]
                 && |s.children[j].uniqueId| == |s.uniqueId|
                 && s.children[j].uniqueId != s.uniqueId
                 && s.children[j].Type() == Test
  {
    var r := SuiteFor(uniqueId, dto, suffix);
    var name := ShortName(dto.fileName, suffix);
    var scenarios := dto.model.scenarioWithIndices;
    if r.Success? {
      forall j | 0 <= j < |scenarios|
        ensures r.value.children[j].uniqueId != r.value.uniqueId
      {
        SuiteIdNeverLeafId(uniqueId, name, scenarios[j].index, dto, scenarios[j]);
      }
    }
  }

  /**
   * The first located file that cannot be handled aborts the whole discovery
   * with its exception; files before it do not survive.
   */
  lemma FirstFailingFileAbortsDiscovery(uniqueId: UniqueId, host: Host, unmarshal: Unmarshaller, ext: string, suffix: string, k: nat)
    requires ResourcesByExtension(host.classPath, host.pathSeparator, host.tree, ext).Success?
    requires var paths := ResourcesByExtension(host.classPath, host.pathSeparator, host.tree, ext).value.paths;
             && k < |paths|
             && (forall i :: 0 <= i < k ==> SuiteOf(uniqueId, paths[i], host.contents, unmarshal, suffix).Success?)
             && SuiteOf(uniqueId, paths[k], host.contents, unmarshal, suffix).Failure?
    ensures var paths := ResourcesByExtension(host.classPath, host.pathSeparator, host.tree, ext).value.paths;
            Discovered(uniqueId, host, unmarshal, ext, suffix) == Failure(SuiteOf(uniqueId, paths[k], host.contents, unmarshal, suffix).error)
  {
    var paths := ResourcesByExtension(host.classPath, host.pathSeparator, host.tree, ext).value.paths;
    BuildSuitesFirstFailure(uniqueId, paths, k, host.contents, unmarshal, suffix);
  }

  lemma BuildSuitesFirstFailure(uniqueId: UniqueId, paths: seq<string>, k: nat, contents: map<string, string>, unmarshal: Unmarshaller, suffix: string)
    requires k < |paths|
    requires forall i :: 0 <= i < k ==> SuiteOf(uniqueId, paths[i], contents, unmarshal, suffix).Success?
    requires SuiteOf(uniqueId, paths[k], contents, unmarshal, suffix).Failure?
    ensures BuildSuites(uniqueId, paths, contents, unmarshal, suffix) == Failure(SuiteOf(uniqueId, paths[k], contents, unmarshal, suffix).error)
  {
    PrefixBuilds(uniqueId, paths, k, contents, unmarshal, suffix);
    assert paths[..k + 1][..k] == paths[..k];
    assert paths[..k + 1][k] == paths[k];
    BuildSuitesPrefixFailure(uniqueId, paths, k + 1, contents, unmarshal, suffix);
  }

  /**
   * The first file that fails to parse aborts the whole discovery with its
   * ScenarioException, which names the file.
   */
  lemma ParseFailureAbortsDiscovery(uniqueId: UniqueId, host: Host, unmarshal: Unmarshaller, ext: string, suffix: string, k: nat)
    requires ResourcesByExtension(host.classPath, host.pathSeparator, host.tree, ext).Success?
    requires var paths := ResourcesByExtension(host.classPath, host.pathSeparator, host.tree, ext).value.paths;
             && k < |paths|
             && (forall i :: 0 <= i < k ==> SuiteOf(uniqueId, paths[i], host.contents, unmarshal, suffix).Success?)
             && ParseFile(paths[k], host.contents, unmarshal).Failure?
    ensures var paths := ResourcesByExtension(host.classPath, host.pathSeparator, host.tree, ext).value.paths;
            var r := Discovered(uniqueId, host, unmarshal, ext, suffix);
            && r == Failure(ParseFile(paths[k], host.contents, unmarshal).error)
            && r.error.ScenarioException? && EndsWith(r.error.message, paths[k])
  {
    FirstFailingFileAbortsDiscovery(uniqueId, host, unmarshal, ext, suffix, k);
  }

  /**
   * A located file that parses but whose short name is blank (a file named
   * just `.scesim`, say) aborts discovery: building the suite's id refuses the
   * blank segment value.
   */
  lemma BlankShortNameAbortsDiscovery(uniqueId: UniqueId, host: Host, unmarshal: Unmarshaller, ext: string, suffix: string, k: nat)
    requires ResourcesByExtension(host.classPath, host.pathSeparator, host.tree, ext).Success?
    requires var paths := ResourcesByExtension(host.classPath, host.pathSeparator, host.tree, ext).value.paths;
             && k < |paths|
             && (forall i :: 0 <= i < k ==> SuiteOf(uniqueId, paths[i], host.contents, unmarshal, suffix).Success?)
             && ParseFile(paths[k], host.contents, unmarshal).Success?
             && IsBlank(ShortName(paths[k], suffix))
    ensures Discovered(uniqueId, host, unmarshal, ext, suffix) == Failure(BLANK_SEGMENT_VALUE)
  {
    var paths := ResourcesByExtension(host.classPath, host.pathSeparator, host.tree, ext).value.paths;
    SuiteOfOutcome(uniqueId, paths[k], host.contents, unmarshal, suffix);
    FirstFailingFileAbortsDiscovery(uniqueId, host, unmarshal, ext, suffix, k);
  }

  /**
   * A file whose canonical path cannot be resolved makes discovery fail with
   * the access error, even when every file located before it is handled.
   */
  lemma WalkFailureAbortsDiscovery(uniqueId: UniqueId, host: Host, unmarshal: Unmarshaller, ext: string, suffix: string)
    requires ResourcesByExtension(host.classPath, host.pathSeparator, host.tree, ext).Success?
    requires var stream := ResourcesByExtension(host.classPath, host.pathSeparator, host.tree, ext).value;
             && stream.stop.Some?
             && forall i :: 0 <= i < |stream.paths| ==> SuiteOf(uniqueId, stream.paths[i], host.contents, unmarshal, suffix).Success?
    ensures Discovered(uniqueId, host, unmarshal, ext, suffix) == Failure(ACCESS_ERROR)
  {
    var roots := SearchRoots(Split(ClassPathOrDefault(host.classPath), host.pathSeparator)).value;
    WalkOutcome(roots, host.tree, ext);
    var paths := ResourcesByExtension(host.classPath, host.pathSeparator, host.tree, ext).value.paths;
    PrefixBuilds(uniqueId, paths, |paths|, host.contents, unmarshal, suffix);
    assert paths[..|paths|] == paths;
  }

  /**
   * Same-named files under two different roots get suites with the same id:
   * nothing in discovery detects the clash.
   */
  lemma SameNameSameSuiteId(
    uniqueId: UniqueId, root1: string, root2: string, base: string, suffix: string,
    model1: ScenarioSimulationModel, model2: ScenarioSimulationModel)
    requires NoSeparator(base)
    ensures var r1 := SuiteFor(uniqueId, ScenarioRunnerDTO(model1, root1 + "/" + base), suffix);
            var r2 := SuiteFor(uniqueId, ScenarioRunnerDTO(model2, root2 + "/" + base), suffix);
            r1.Success? == r2.Success? && (r1.Success? ==> r1.value.uniqueId == r2.value.uniqueId)
  {
    var p1, p2 := root1 + "/" + base, root2 + "/" + base;
    assert p1 == (root1 + "/") + base;
    assert p2 == (root2 + "/") + base;
    ShortNameOfPath(root1 + "/", base, suffix);
    ShortNameOfPath(root2 + "/", base, suffix);
    var n1, n2 := ShortName(p1, suffix), ShortName(p2, suffix);
    assert n1 == n2 by {
      if EndsWith(base, suffix) {
        assert n1 == (n1 + suffix)[..|n1|];
        assert n2 == (n2 + suffix)[..|n2|];
      }
    }
  }

  // ---------------------------------------------------------------------------
  // discover

  /**
   * The body of discover's loop for one parsed file: a suite named after the
   * file (whose constructor may throw), then one scenario descriptor per
   * scenario of the file, in order.
   */
  method BuildSuite(uniqueId: UniqueId, dto: ScenarioRunnerDTO, suffix: string) returns (r: Result<SuiteDescriptor, Throwable>)
    ensures r == SuiteFor(uniqueId, dto, suffix)
  {
    var fileName := ShortName(dto.fileName, suffix);
    var created := NewSuiteDescriptor(uniqueId, fileName);
    if created.Failure? {
      return Failure(created.error);
    }
    var suite := created.value;
    var scenarios := dto.model.scenarioWithIndices;
    var j := 0;
    while j < |scenarios|
      invariant 0 <= j <= |scenarios|
      invariant suite == created.value.(children := ScenarioDescriptorsFor(uniqueId, fileName, dto, scenarios[..j]))
    {
      var scenarioWithIndex := scenarios[j];
      var index := scenarioWithIndex.index;
      var leaf := NewScenarioDescriptor(uniqueId, fileName, index, dto, scenarioWithIndex);
      ScenarioDescriptorsForSnoc(uniqueId, fileName, dto, scenarios, j);
      suite := suite.(children := suite.children + [leaf]);
      j := j + 1;
    }
    assert scenarios[..j] == scenarios;
    return Success(suite);
  }

  /** One step of discover's stream: parse the located file, then build its suite. */
  method DiscoverFile(uniqueId: UniqueId, path: string, contents: map<string, string>, unmarshal: Unmarshaller, suffix: string)
    returns (r: Result<SuiteDescriptor, Throwable>)
    ensures r == SuiteOf(uniqueId, path, contents, unmarshal, suffix)
  {
    var scesim := ParseFile(path, contents, unmarshal);
    if scesim.Failure? {
      return Failure(scesim.error);
    }
    r := BuildSuite(uniqueId, scesim.value, suffix);
  }

  /**
   * discover's `forEach` over the located paths: each path's suite is added to
   * the root in order, until the first exception, which is returned.
   */
  method DiscoverPaths(parentDescriptor: EngineDescriptor, paths: seq<string>, contents: map<string, string>, unmarshal: Unmarshaller, suffix: string)
    returns (thrown: Option<Throwable>)
    requires parentDescriptor.children == []
    modifies parentDescriptor
    ensures BuildSuites(parentDescriptor.uniqueId, paths, contents, unmarshal, suffix).Failure? ==>
              thrown == Some(BuildSuites(parentDescriptor.uniqueId, paths, contents, unmarshal, suffix).error)
    ensures BuildSuites(parentDescriptor.uniqueId, paths, contents, unmarshal, suffix).Success? ==>
              thrown == None && parentDescriptor.children == BuildSuites(parentDescriptor.uniqueId, paths, contents, unmarshal, suffix).value
  {
    var uniqueId := parentDescriptor.uniqueId;
    var i := 0;
    while i < |paths|
      invariant 0 <= i <= |paths|
      invariant BuildSuites(uniqueId, paths[..i], contents, unmarshal, suffix) == Success(parentDescriptor.children)
    {
      BuildSuitesStep(uniqueId, paths, i, contents, unmarshal, suffix);
      var suite := DiscoverFile(uniqueId, paths[i], contents, unmarshal, suffix);
      if suite.Failure? {
        BuildSuitesPrefixFailure(uniqueId, paths, i + 1, contents, unmarshal, suffix);
        return Some(suite.error);
      }
      parentDescriptor.AddChild(suite.value);
      i := i + 1;
    }
    assert paths[..i] == paths;
    return None;
  }

  /**
   * discover: builds the root, walks the resources, and for each located file in
   * order parses it, builds its suite and its scenario descriptors, and adds the
   * suite to the root. The first exception is the result instead of the root.
   */
  method Discover(uniqueId: UniqueId, host: Host, unmarshal: Unmarshaller, ext: string, suffix: string)
    returns (r: Result<EngineDescriptor, Throwable>)
    ensures Discovered(uniqueId, host, unmarshal, ext, suffix).Failure? ==>
              r == Failure(Discovered(uniqueId, host, unmarshal, ext, suffix).error)
    ensures Discovered(uniqueId, host, unmarshal, ext, suffix).Success? ==>
              && r.Success? && fresh(r.value)
              && r.value.uniqueId == uniqueId && r.value.displayName == ENGINE_DISPLAY_NAME
              && r.value.children == Discovered(uniqueId, host, unmarshal, ext, suffix).value
  {
    var parentDescriptor := new EngineDescriptor(uniqueId, ENGINE_DISPLAY_NAME);
    var resources := ResourcesByExtension(host.classPath, host.pathSeparator, host.tree, ext);
    if resources.Failure? {
      return Failure(resources.error);
    }
    var thrown := DiscoverPaths(parentDescriptor, resources.value.paths, host.contents, unmarshal, suffix);
    if thrown.Some? {
      return Failure(thrown.value);
    }
    if resources.value.stop.Some? {
      return Failure(resources.value.stop.value);
    }
    return Success(parentDescriptor);
  }
}
