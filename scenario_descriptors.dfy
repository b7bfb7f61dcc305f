/**
 * KogitoTestScenarioDescriptor: the leaf of the test tree, one per scenario of
 * a file. It is immutable: its fields are the constructor's arguments, and its
 * identity and display name are computed once from the file name and index.
 * The id's segment value ends with the index and the display name starts with
 * it, so neither is blank and the test platform never refuses them.
 */
module ScenarioDescriptors {
  import opened Wrappers
  import opened Strings
  import opened ScenarioModel
  import opened UniqueIds

  /** The leaf descriptor; the field selectors are the class's getters. */
  datatype ScenarioDescriptor = ScenarioDescriptor(
    uniqueId: UniqueId,
    displayName: string,
    scenarioRunnerDTO: ScenarioRunnerDTO,
    index: int,
    fileName: string,
    scenarioWithIndex: ScenarioWithIndex)
  {
    /** getType: a leaf is always a test. */
    function Type(): (t: TestType)
      ensures t == Test
    {
      Test
    }
  }

  /**
   * The constructor: the id is the given parent id plus one segment whose value
   * is the file name followed by the index; the display name puts the index first.
   */
  function NewScenarioDescriptor(
    parent: UniqueId, fileName: string, index: int,
    dto: ScenarioRunnerDTO, scenario: ScenarioWithIndex): (d: ScenarioDescriptor)
    ensures |d.uniqueId| == |parent| + 1 && d.uniqueId[..|parent|] == parent
    ensures d.uniqueId[|parent|] == Segment(SEGMENT_TYPE, fileName + DecimalString(index))
    ensures AppendChecked(parent, SEGMENT_TYPE, fileName + DecimalString(index)) == Success(d.uniqueId)
    ensures d.displayName == DecimalString(index) + fileName
    ensures !IsBlank(d.displayName)
    ensures d.scenarioRunnerDTO == dto && d.index == index
    ensures d.fileName == fileName && d.scenarioWithIndex == scenario
  {
    assert (DecimalString(index) + fileName)[0] > ' ';
    assert (fileName + DecimalString(index))[|fileName|] > ' ';
    SegmentTypeNotBlank();
    ScenarioDescriptor(
      Append(parent, SEGMENT_TYPE, fileName + DecimalString(index)),
      DecimalString(index) + fileName,
      dto, index, fileName, scenario)
  }

  /** Under one parent and one file name, distinct indices give distinct unique ids. */
  lemma UniqueIdsDistinctByIndex(
    parent: UniqueId, fileName: string,
    i: int, dtoI: ScenarioRunnerDTO, scenarioI: ScenarioWithIndex,
    j: int, dtoJ: ScenarioRunnerDTO, scenarioJ: ScenarioWithIndex)
    requires i != j
    ensures NewScenarioDescriptor(parent, fileName, i, dtoI, scenarioI).uniqueId
         != NewScenarioDescriptor(parent, fileName, j, dtoJ, scenarioJ).uniqueId
  {
    var a := NewScenarioDescriptor(parent, fileName, i, dtoI, scenarioI).uniqueId;
    var b := NewScenarioDescriptor(parent, fileName, j, dtoJ, scenarioJ).uniqueId;
    if a == b {
      var u, v := fileName + DecimalString(i), fileName + DecimalString(j);
      assert u == a[|parent|].value == v;
      assert DecimalString(i) == u[|fileName|..] == DecimalString(j);
      DecimalStringInjective(i, j);
    }
  }

  /** Ids do not separate file names from indices: ("A1", 1) and ("A", 11) get the same id. */
  lemma UniqueIdCollisionAcrossFileNames(
    parent: UniqueId,
    dto1: ScenarioRunnerDTO, scenario1: ScenarioWithIndex,
    dto2: ScenarioRunnerDTO, scenario2: ScenarioWithIndex)
    ensures NewScenarioDescriptor(parent, "A1", 1, dto1, scenario1).uniqueId
         == NewScenarioDescriptor(parent, "A", 11, dto2, scenario2).uniqueId
  {
    assert DecimalString(1) == "1";
    assert DecimalString(11) == "11";
    assert "A1" + "1" == "A" + "11";
  }
}
