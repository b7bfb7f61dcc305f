/**
 * The part of the test platform's identity scheme the engine relies on: a
 * unique id is a sequence of (type, value) segments that `append` extends by
 * one (refusing a blank segment type or value), and every descriptor is
 * either a container or a test.
 */
module UniqueIds {
  import opened Wrappers
  import opened Strings
  import opened ScenarioModel

  datatype Segment = Segment(segmentType: string, value: string)

  type UniqueId = seq<Segment>

  /** The segment type both descriptor classes append. */
  const SEGMENT_TYPE: string := "testscenario"

  /** UniqueId.append: the parent's segments followed by exactly one new segment. */
  function Append(parent: UniqueId, segmentType: string, value: string): (id: UniqueId)
    ensures |id| == |parent| + 1
    ensures id[..|parent|] == parent
    ensures id[|parent|] == Segment(segmentType, value)
  {
    parent + [Segment(segmentType, value)]
  }

  /** What the platform's segment constructor throws for a blank segment type. */
  const BLANK_SEGMENT_TYPE: Throwable := PreconditionViolationException("type must not be null or blank")

  /** What the platform's segment constructor throws for a blank segment value. */
  const BLANK_SEGMENT_VALUE: Throwable := PreconditionViolationException("value must not be null or blank")

  /**
   * UniqueId.append(type, value) with the checks of the segment it builds: the
   * segment constructor refuses a blank type, then a blank value; otherwise the
   * id is extended by that one segment.
   */
  function AppendChecked(parent: UniqueId, segmentType: string, value: string): (r: Result<UniqueId, Throwable>)
    ensures r.Failure? <==> IsBlank(segmentType) || IsBlank(value)
    ensures r.Failure? && IsBlank(segmentType) ==> r.error == BLANK_SEGMENT_TYPE
    ensures r.Failure? && !IsBlank(segmentType) ==> r.error == BLANK_SEGMENT_VALUE
    ensures r.Success? ==> r.value == Append(parent, segmentType, value)
  {
    if IsBlank(segmentType) then Failure(BLANK_SEGMENT_TYPE)
    else if IsBlank(value) then Failure(BLANK_SEGMENT_VALUE)
    else Success(Append(parent, segmentType, value))
  }

  /** The segment type the engine uses is never refused. */
  lemma SegmentTypeNotBlank()
    ensures !IsBlank(SEGMENT_TYPE)
  {
    assert SEGMENT_TYPE[0] == 't';
  }

  /** TestDescriptor.Type, restricted to the two kinds the engine produces. */
  datatype TestType = Container | Test
}
