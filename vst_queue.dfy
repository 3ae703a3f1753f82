// The host's side of a block: a parameter value queue (Vst::IParamValueQueue)
// and the list of queues for the parameters that changed
// (Vst::IParameterChanges). Pointers the host may leave null are Options.
module VstQueue {
  import opened Breakpoints

  /** A queue for one parameter id. getPoint can fail at any index the host
      chooses; here that is an index out of range or a point stored as None. */
  datatype ParamValueQueue = ParamValueQueue(paramId: int, points: seq<Option<Breakpoint>>)

  /** getParameterData(index) for index in range; an entry may be null. */
  type ParameterChanges = seq<Option<ParamValueQueue>>

  function GetPointCount(q: ParamValueQueue): nat
  {
    |q.points|
  }

  /** getPoint(index, offset, value) == kResultOk, with the point it writes. */
  function GetPoint(q: ParamValueQueue, index: int): (r: Option<Breakpoint>)
    ensures r.Some? ==> 0 <= index < GetPointCount(q) && q.points[index] == r
  {
    if 0 <= index < |q.points| then q.points[index] else None
  }

  /** A queue that has every point of src, in order. */
  function FullQueue(paramId: int, src: seq<Breakpoint>): (q: ParamValueQueue)
    ensures GetPointCount(q) == |src|
    ensures forall i :: 0 <= i < |src| ==> GetPoint(q, i) == Some(src[i])
  {
    ParamValueQueue(paramId, seq(|src|, i requires 0 <= i < |src| => Some(src[i])))
  }

  /** The queue pointer p is non-null and carries the parameter id. */
  predicate HasId(p: Option<ParamValueQueue>, id: int)
  {
    p.Some? && p.value.paramId == id
  }
}
