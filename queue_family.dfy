/** Queue family selection: what the driver reports per queue family, the
    first-presentable search both selection routines perform, and
    QueueFamilyIndices (is_ready, merge, from_surface). */
module QueueFamily {
  import opened Vk

  /** What the driver reports for one queue family: its queue flags and the
      answer of the surface-support query for that family's index. */
  datatype FamilyReport = FamilyReport(queueFlags: Flags, surfaceSupport: VkResult<bool>)

  /** The graphics test as written, `!(flags | GRAPHICS).is_empty()`. */
  predicate GraphicsTest(queueFlags: Flags) {
    queueFlags | QUEUE_GRAPHICS != 0
  }

  /** The test uses `|` where `&` was evidently meant, so every family passes
      it, whether or not it has graphics queues. */
  lemma GraphicsTestAlwaysHolds(queueFlags: Flags)
    ensures GraphicsTest(queueFlags)
  {
    assert (queueFlags | QUEUE_GRAPHICS) & QUEUE_GRAPHICS == QUEUE_GRAPHICS;
  }

  /** The position of the first family whose surface-support query does not
      answer false (it answers true or fails), |families| if there is none. */
  function FirstAnswered(families: seq<FamilyReport>): (k: nat)
    ensures k <= |families|
    ensures forall j | 0 <= j < k :: families[j].surfaceSupport == Success(false)
    ensures k < |families| ==> families[k].surfaceSupport != Success(false)
  {
    if families == [] then 0
    else if families[0].surfaceSupport != Success(false) then 0
    else
      var k := FirstAnswered(families[1..]);
      assert forall j | 1 <= j < |families| :: families[j] == families[1..][j - 1];
      k + 1
  }

  /** The search both loops perform, as a specification: the index of the
      first family whose surface-support query answers true, stopping at the
      first query that fails; QueueFamilyNotSupported when no family does. */
  function PresentSearch(families: seq<FamilyReport>): (r: Result<nat>)
    ensures r.Ok? ==>
      && r.value < |families|
      && families[r.value].surfaceSupport == Success(true)
      && forall j | 0 <= j < r.value :: families[j].surfaceSupport == Success(false)
    ensures r == Err(QueueFamilyNotSupported) <==>
      forall j | 0 <= j < |families| :: families[j].surfaceSupport == Success(false)
    ensures r.Err? ==> r.error == QueueFamilyNotSupported || r.error.VkError?
    ensures r.Err? && r.error.VkError? ==> exists j | 0 <= j < |families| ::
      && families[j].surfaceSupport == Failure(r.error.code)
      && forall i | 0 <= i < j :: families[i].surfaceSupport == Success(false)
  {
    var k := FirstAnswered(families);
    if k == |families| then Err(QueueFamilyNotSupported)
    else
      match families[k].surfaceSupport
      case Failure(code) => Err(VkError(code))
      case Success(_) => Ok(k)
  }

  /** A search result seen from `d` families further back. */
  function Shifted(r: Result<nat>, d: nat): Result<nat> {
    if r.Ok? then Ok(r.value + d) else r
  }

  /** A search over a prefix that found nothing and met no error continues
      into the remaining families. */
  lemma PresentSearchSkipsUnsupported(families: seq<FamilyReport>, i: nat)
    requires i <= |families|
    requires forall j | 0 <= j < i :: families[j].surfaceSupport == Success(false)
    ensures PresentSearch(families) == Shifted(PresentSearch(families[i..]), i)
  {
    var k, rest := FirstAnswered(families), FirstAnswered(families[i..]);
    assert forall j | 0 <= j < |families| - i :: families[i..][j] == families[j + i];
    assert k == rest + i;
  }

  /** QueueFamilyIndices */
  datatype QueueFamilyIndices = QueueFamilyIndices(graphicFamily: Option<u32>, presentFamily: Option<u32>)

  /** is_ready: both families were found. */
  predicate IsReady(fi: QueueFamilyIndices) {
    fi.graphicFamily.Some? && fi.presentFamily.Some?
  }

  /** merge: the distinct family indices (a HashSet, so their order is not
      part of the result), or None when the indices are not ready. */
  method Merge(fi: QueueFamilyIndices) returns (r: Option<set<u32>>)
    ensures r.None? <==> !IsReady(fi)
    ensures r.Some? ==> r.value == {fi.graphicFamily.value, fi.presentFamily.value}
    ensures r.Some? ==> 1 <= |r.value| <= 2
    ensures r.Some? ==> (|r.value| == 1 <==> fi.graphicFamily == fi.presentFamily)
  {
    var ret: set<u32> := {};
    if IsReady(fi) {
      ret := ret + {fi.graphicFamily.value};
      ret := ret + {fi.presentFamily.value};
      return Some(ret);
    } else {
      return None;
    }
  }

  /** from_surface: walk the families in order, overwriting the graphics
      family whenever the graphics test passes and recording the present
      family when the surface is supported, until both are set. A failing
      support query is returned as is. Unlike QueueInfo::new, not finding a
      presentable family is not an error: the indices are returned unready. */
  method FromSurface(families: seq<FamilyReport>) returns (r: VkResult<QueueFamilyIndices>)
    requires |families| <= U32_MAX
    ensures PresentSearch(families).Ok? ==>
      var k := PresentSearch(families).value;
      r == Success(QueueFamilyIndices(Some(k), Some(k)))
    ensures PresentSearch(families) == Err(QueueFamilyNotSupported) ==>
      r == Success(QueueFamilyIndices(if |families| == 0 then None else Some(|families| - 1), None))
    ensures PresentSearch(families).Err? && PresentSearch(families).error.VkError? ==>
      r == Failure(PresentSearch(families).error.code)
    ensures r.Success? ==> (IsReady(r.value) <==> PresentSearch(families).Ok?)
  {
    var familyIndices := QueueFamilyIndices(None, None);
    var i := 0;
    while i < |families|
      invariant 0 <= i <= |families|
      invariant forall j | 0 <= j < i :: families[j].surfaceSupport == Success(false)
      invariant familyIndices == QueueFamilyIndices(if i == 0 then None else Some(i - 1), None)
    {
      GraphicsTestAlwaysHolds(families[i].queueFlags);
      if GraphicsTest(families[i].queueFlags) {
        familyIndices := familyIndices.(graphicFamily := Some(i));
      }
      PresentSearchSkipsUnsupported(families, i);
      match families[i].surfaceSupport {
        case Failure(code) =>
          return Failure(code);
        case Success(supported) =>
          if supported {
            familyIndices := familyIndices.(presentFamily := Some(i));
          }
      }
      if IsReady(familyIndices) {
        return Success(familyIndices);
      }
      i := i + 1;
    }
    PresentSearchSkipsUnsupported(families, i);
    return Success(familyIndices);
  }
}
