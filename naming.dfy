/**
 * Names the engine derives from a scenario file's path: the short name
 * (`getScesimFileName`) and the JUnit 4 descriptions of a simulation and of
 * one of its scenarios (`getDescriptionForSimulation`,
 * `getDescriptionForScenario`), reduced to their strings.
 *
 * The scenario-file suffix (`ConstantsHolder.SCESIM_EXTENSION`) is not part of
 * this model, so it is a parameter `suffix` throughout.
 */
module Naming {
  import opened Wrappers
  import opened Strings
  import opened ScenarioModel

  predicate IsSeparator(c: char) {
    c == '/' || c == '\\'
  }

  predicate NoSeparator(s: string) {
    forall i :: 0 <= i < |s| ==> !IsSeparator(s[i])
  }

  /** The position of the last `/` or `\` in `path`, found as the source does: replace `\` by `/`, then look for `/`. */
  function LastSeparatorIndex(path: string): (idx: int)
    ensures -1 <= idx < |path|
    ensures idx >= 0 ==> IsSeparator(path[idx])
    ensures forall k :: idx < k < |path| ==> !IsSeparator(path[k])
  {
    var replaced := ReplaceChar(path, '\\', '/');
    assert forall k :: 0 <= k < |path| ==> (replaced[k] == '/' <==> IsSeparator(path[k]));
    LastIndexOf(replaced, '/')
  }

  /** getScesimFileName on a present path: the text after the last separator, without a trailing `suffix`. */
  function ShortName(path: string, suffix: string): (name: string)
    ensures NoSeparator(name)
    ensures |name| <= |path|
  {
    var idx := LastSeparatorIndex(path);
    var fileName := if idx >= 0 then path[idx + 1..] else path;
    if EndsWith(fileName, suffix) then
      LastIndexOfTrailing(fileName, suffix);
      fileName[..LastIndexOfString(fileName, suffix)]
    else
      fileName
  }

  /** getScesimFileName: null in, null out; otherwise the short name. */
  function ScesimFileName(fileFullPath: Option<string>, suffix: string): (r: Option<string>)
    ensures r.None? <==> fileFullPath.None?
    ensures r.Some? ==> r.value == ShortName(fileFullPath.value, suffix) && NoSeparator(r.value)
  {
    match fileFullPath
    case None => None
    case Some(path) => Some(ShortName(path, suffix))
  }

  /**
   * Every path is a directory part (empty, or ending in a separator) followed by
   * a separator-free base name; the short name is that base name with one
   * trailing `suffix` removed when it has one, and the base name itself otherwise.
   */
  lemma ShortNameOfPath(dir: string, base: string, suffix: string)
    requires dir == [] || IsSeparator(dir[|dir| - 1])
    requires NoSeparator(base)
    ensures EndsWith(base, suffix) ==> ShortName(dir + base, suffix) + suffix == base
    ensures !EndsWith(base, suffix) ==> ShortName(dir + base, suffix) == base
  {
    var path := dir + base;
    LastSeparatorOfPath(dir, base);
    var idx := LastSeparatorIndex(path);
    var fileName := if idx >= 0 then path[idx + 1..] else path;
    assert fileName == base;
    if EndsWith(base, suffix) {
      LastIndexOfTrailing(base, suffix);
      assert base[..|base| - |suffix|] + suffix == base;
    }
  }

  /** The last separator of a directory part followed by a separator-free base name ends the directory part. */
  lemma LastSeparatorOfPath(dir: string, base: string)
    requires dir == [] || IsSeparator(dir[|dir| - 1])
    requires NoSeparator(base)
    ensures LastSeparatorIndex(dir + base) == |dir| - 1
  {
    var path := dir + base;
    if dir != [] {
      assert IsSeparator(path[|dir| - 1]);
    }
    forall k | |dir| <= k < |path| ensures !IsSeparator(path[k]) {
      assert path[k] == base[k - |dir|];
    }
  }

  /** A separator-free path that does not end with the suffix is its own short name. */
  lemma ShortNameUnchanged(path: string, suffix: string)
    requires NoSeparator(path) && !EndsWith(path, suffix)
    ensures ShortName(path, suffix) == path
  {
    ShortNameOfPath([], path, suffix);
    assert [] + path == path;
  }

  /** Worked example: a Unix path. */
  lemma ShortNameUnixExample()
    ensures ShortName("/a/b/Loan.scesim", ".scesim") == "Loan"
  {
    BaseNameExample();
    ShortNameOfPath("/a/b/", "Loan.scesim", ".scesim");
    assert "/a/b/" + "Loan.scesim" == "/a/b/Loan.scesim";
    var n := ShortName("/a/b/Loan.scesim", ".scesim");
    assert n == (n + ".scesim")[..4];
  }

  /** Worked example: a Windows path to a file of the same name gives the same short name. */
  lemma ShortNameWindowsExample()
    ensures ShortName("C:\\a\\b\\Loan.scesim", ".scesim") == "Loan"
  {
    BaseNameExample();
    ShortNameOfPath("C:\\a\\b\\", "Loan.scesim", ".scesim");
    assert "C:\\a\\b\\" + "Loan.scesim" == "C:\\a\\b\\Loan.scesim";
    var n := ShortName("C:\\a\\b\\Loan.scesim", ".scesim");
    assert n == (n + ".scesim")[..4];
  }

  lemma BaseNameExample()
    ensures NoSeparator("Loan.scesim") && EndsWith("Loan.scesim", ".scesim")
    ensures "Loan.scesim"[..4] == "Loan"
  {
  }

  /** The simple name of AbstractScenarioRunner, used when no file name is given. */
  const ABSTRACT_SCENARIO_RUNNER: string := "AbstractScenarioRunner"

  /** The test (class) name of a description: the short name when a path is present. */
  function TestName(fullFileName: Option<string>, suffix: string): (r: string)
    ensures fullFileName.None? ==> r == ABSTRACT_SCENARIO_RUNNER
    ensures fullFileName.Some? ==> ScesimFileName(fullFileName, suffix) == Some(r) && NoSeparator(r)
  {
    match fullFileName
    case Some(path) => ShortName(path, suffix)
    case None => ABSTRACT_SCENARIO_RUNNER
  }

  /** `String.format("#%d: %s", index, description)` */
  function ScenarioLabel(index: int, description: string): (r: string)
    ensures var n := |DecimalString(index)|;
            && |r| == n + 3 + |description|
            && r[0] == '#'
            && r[1..1 + n] == DecimalString(index)
            && r[1 + n..3 + n] == ": "
            && r[3 + n..] == description
  {
    "#" + DecimalString(index) + ": " + description
  }

  /** The first `:` of a label is the one right after the rendered index. */
  lemma LabelColon(index: int, description: string)
    ensures ScenarioLabel(index, description)[1 + |DecimalString(index)|] == ':'
    ensures forall k :: 0 <= k < 1 + |DecimalString(index)| ==> ScenarioLabel(index, description)[k] != ':'
  {
    var a := DecimalString(index);
    var l := ScenarioLabel(index, description);
    assert l == "#" + a + ": " + description;
    forall k | 1 <= k < 1 + |a| ensures l[k] != ':' {
      assert l[k] == a[k - 1];
    }
  }

  /** The label of a scenario determines both its index and its description. */
  lemma ScenarioLabelInjective(i1: int, d1: string, i2: int, d2: string)
    requires ScenarioLabel(i1, d1) == ScenarioLabel(i2, d2)
    ensures i1 == i2 && d1 == d2
  {
    var a, b := DecimalString(i1), DecimalString(i2);
    var l := ScenarioLabel(i1, d1);
    assert l == "#" + a + ": " + d1;
    assert l == "#" + b + ": " + d2;
    LabelColon(i1, d1);
    LabelColon(i2, d2);
    assert |a| == |b|;
    assert a == l[1..1 + |a|] == b;
    DecimalStringInjective(i1, i2);
    assert d1 == l[3 + |a|..] == d2;
  }

  /** A JUnit 4 test description, reduced to its class name and method name. */
  datatype TestDescription = TestDescription(testClassName: string, methodName: string)

  /** A JUnit 4 suite description, reduced to its name and its children in order. */
  datatype SuiteDescription = SuiteDescription(displayName: string, children: seq<TestDescription>)

  /**
   * getDescriptionForScenario. Its display name wraps the class name in the
   * method name, so it is never empty and JUnit 4 never refuses it.
   */
  function DescriptionForScenario(fullFileName: Option<string>, index: int, description: string, suffix: string): (d: TestDescription)
    ensures fullFileName.Some? ==> d.testClassName == ShortName(fullFileName.value, suffix)
    ensures fullFileName.None? ==> d.testClassName == ABSTRACT_SCENARIO_RUNNER
    ensures d.methodName == ScenarioLabel(index, description)
  {
    TestDescription(TestName(fullFileName, suffix), ScenarioLabel(index, description))
  }

  /** The children getDescriptionForSimulation adds, one per scenario, in list order. */
  function ScenarioDescriptions(fullFileName: Option<string>, scenarios: seq<ScenarioWithIndex>, suffix: string): (ds: seq<TestDescription>)
    ensures |ds| == |scenarios|
    ensures forall i :: 0 <= i < |scenarios| ==>
      ds[i] == DescriptionForScenario(fullFileName, scenarios[i].index, scenarios[i].scesimData.description, suffix)
  {
    if scenarios == [] then []
    else
      var last := scenarios[|scenarios| - 1];
      ScenarioDescriptions(fullFileName, scenarios[..|scenarios| - 1], suffix)
        + [DescriptionForScenario(fullFileName, last.index, last.scesimData.description, suffix)]
  }

  /** What JUnit 4 throws for a description whose display name is empty. */
  const EMPTY_DISPLAY_NAME: Throwable := IllegalArgumentException("The display name must not be empty.")

  /**
   * getDescriptionForSimulation: a suite named like its children's class, one
   * child per scenario, in order. JUnit 4 refuses an empty suite name, so a
   * path whose short name is empty makes it throw.
   */
  function DescriptionForSimulation(fullFileName: Option<string>, scenarios: seq<ScenarioWithIndex>, suffix: string): (r: Result<SuiteDescription, Throwable>)
    ensures r.Failure? <==> TestName(fullFileName, suffix) == ""
    ensures r.Failure? ==> r.error == EMPTY_DISPLAY_NAME
    ensures r.Success? ==> r.value.displayName == TestName(fullFileName, suffix)
    ensures r.Success? ==> |r.value.children| == |scenarios|
    ensures r.Success? ==> forall i :: 0 <= i < |scenarios| ==>
      r.value.children[i].testClassName == r.value.displayName
      && r.value.children[i].methodName == ScenarioLabel(scenarios[i].index, scenarios[i].scesimData.description)
  {
    var testSuiteName := TestName(fullFileName, suffix);
    if testSuiteName == "" then Failure(EMPTY_DISPLAY_NAME)
    else Success(SuiteDescription(testSuiteName, ScenarioDescriptions(fullFileName, scenarios, suffix)))
  }

  /** A file named only by the suffix, such as `/r/.scesim`, has an empty short name. */
  lemma SuffixOnlyFileHasEmptyName(dir: string, suffix: string)
    requires dir == [] || IsSeparator(dir[|dir| - 1])
    requires NoSeparator(suffix)
    ensures ShortName(dir + suffix, suffix) == ""
    ensures IsBlank(ShortName(dir + suffix, suffix))
  {
    ShortNameOfPath(dir, suffix, suffix);
    var n := ShortName(dir + suffix, suffix);
    assert |n + suffix| == |suffix|;
  }

  /** Such a file has no simulation description: JUnit 4 refuses the empty name. */
  lemma SuffixOnlyFileHasNoDescription(dir: string, suffix: string, scenarios: seq<ScenarioWithIndex>)
    requires dir == [] || IsSeparator(dir[|dir| - 1])
    requires NoSeparator(suffix)
    ensures DescriptionForSimulation(Some(dir + suffix), scenarios, suffix) == Failure(EMPTY_DISPLAY_NAME)
  {
    SuffixOnlyFileHasEmptyName(dir, suffix);
  }
}
