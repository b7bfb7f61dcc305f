/**
 * KogitoTestScenarioSuiteTestDescriptor: the container of the test tree, one
 * per scenario file. Its identity and display name come from the file name
 * alone; its children are the leaves appended to it during discovery.
 */
module SuiteDescriptors {
  import opened Wrappers
  import opened Strings
  import opened ScenarioModel
  import opened UniqueIds
  import opened ScenarioDescriptors

  /** The suite descriptor, with the children list its library base class keeps. */
  datatype SuiteDescriptor = SuiteDescriptor(
    uniqueId: UniqueId,
    displayName: string,
    children: seq<ScenarioDescriptor>)
  {
    /** getType: a suite is always a container. */
    function Type(): (t: TestType)
      ensures t == Container
    {
      Container
    }
  }

  /**
   * The constructor: parent id plus one segment holding the file name; display
   * name the file name; no children yet. The id is built first, as the argument
   * of the base class's constructor, and `UniqueId.append` refuses a blank
   * segment value; so a blank file name makes the constructor throw that
   * refusal, before the base class would refuse the same blank display name.
   */
  function NewSuiteDescriptor(parent: UniqueId, fileName: string): (r: Result<SuiteDescriptor, Throwable>)
    ensures r.Failure? <==> IsBlank(fileName)
    ensures r.Failure? ==> r.error == BLANK_SEGMENT_VALUE
    ensures r.Success? ==> |r.value.uniqueId| == |parent| + 1 && r.value.uniqueId[..|parent|] == parent
    ensures r.Success? ==> r.value.uniqueId[|parent|] == Segment(SEGMENT_TYPE, fileName)
    ensures r.Success? ==> r.value.displayName == fileName && r.value.children == []
  {
    SegmentTypeNotBlank();
    match AppendChecked(parent, SEGMENT_TYPE, fileName)
    case Failure(e) => Failure(e)
    case Success(id) => Success(SuiteDescriptor(id, fileName, []))
  }

  /**
   * Under one parent, suites that get built have equal ids exactly when their
   * file names are equal: nothing tells apart two files that share a short name.
   */
  lemma SuiteIdsEqualIffSameName(parent: UniqueId, fileName1: string, fileName2: string)
    ensures var r1, r2 := NewSuiteDescriptor(parent, fileName1), NewSuiteDescriptor(parent, fileName2);
            r1.Success? && r2.Success? ==> (r1.value.uniqueId == r2.value.uniqueId <==> fileName1 == fileName2)
  {
    var r1, r2 := NewSuiteDescriptor(parent, fileName1), NewSuiteDescriptor(parent, fileName2);
    if r1.Success? && r2.Success? && r1.value.uniqueId == r2.value.uniqueId {
      assert r1.value.uniqueId[|parent|] == r2.value.uniqueId[|parent|];
    }
  }

  /**
   * A suite and a leaf built under the same parent from the same file name sit at
   * the same depth and never share an id: the leaf's segment value always carries
   * a non-empty index after the file name.
   */
  lemma SuiteIdNeverLeafId(
    parent: UniqueId, fileName: string, index: int,
    dto: ScenarioRunnerDTO, scenario: ScenarioWithIndex)
    ensures var r := NewSuiteDescriptor(parent, fileName);
            var d := NewScenarioDescriptor(parent, fileName, index, dto, scenario).uniqueId;
            r.Success? ==> |r.value.uniqueId| == |d| && r.value.uniqueId != d
  {
    var r := NewSuiteDescriptor(parent, fileName);
    var d := NewScenarioDescriptor(parent, fileName, index, dto, scenario).uniqueId;
    if r.Success? {
      assert |r.value.uniqueId[|parent|].value| < |d[|parent|].value|;
    }
  }
}
