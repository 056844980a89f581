/** QueueInfo: the graphics and present queue family chosen for a surface,
    each with its queue priority, and the merged per-family priorities the
    logical device is created with. Priorities are f32 in the program and
    only ever 0.0 or 1.0; they are modelled as reals. */
module Queue {
  import opened Vk
  import opened QueueFamily

  datatype IndexPriority = IndexPriority(index: u32, priority: real)

  /** QueueInfo; its Default is both families at index 0 with priority 0.0. */
  datatype QueueInfo = QueueInfo(graphicFamilyIndexPriority: IndexPriority, presentFamilyIndexPriority: IndexPriority)

  /** QueueInfo::new: walk the families in order, taking every family that
      passes the graphics test as the graphics family and a surface-supporting
      one as the present family, and stop once both are found. A failing
      support query aborts with its error; no presentable family (also when
      there are no families at all) is QueueFamilyNotSupported. */
  method QueueInfoNew(families: seq<FamilyReport>) returns (r: Result<QueueInfo>)
    requires |families| <= U32_MAX
    ensures r.Err? <==> PresentSearch(families).Err?
    ensures r.Err? ==> r.error == PresentSearch(families).error
    ensures r.Ok? ==>
      var k := PresentSearch(families).value;
      r.value == QueueInfo(IndexPriority(k, 1.0), IndexPriority(k, 1.0))
  {
    var queueInfo := QueueInfo(IndexPriority(0, 0.0), IndexPriority(0, 0.0));
    var graphicOk := false;
    var presentOk := false;
    var i := 0;
    while i < |families|
      invariant 0 <= i <= |families|
      invariant forall j | 0 <= j < i :: families[j].surfaceSupport == Success(false)
      invariant !presentOk && (graphicOk <==> i > 0)
      invariant i > 0 ==> queueInfo.graphicFamilyIndexPriority == IndexPriority(i - 1, 1.0)
    {
      GraphicsTestAlwaysHolds(families[i].queueFlags);
      if GraphicsTest(families[i].queueFlags) {
        queueInfo := queueInfo.(graphicFamilyIndexPriority := IndexPriority(i, 1.0));
        graphicOk := true;
      }
      PresentSearchSkipsUnsupported(families, i);
      match families[i].surfaceSupport {
        case Failure(code) =>
          return Err(VkError(code));
        case Success(supported) =>
          if supported {
            queueInfo := queueInfo.(presentFamilyIndexPriority := IndexPriority(i, 1.0));
            presentOk := true;
          }
      }
      if graphicOk && presentOk {
        break;
      }
      i := i + 1;
    }
    if graphicOk && presentOk {
      return Ok(queueInfo);
    } else {
      PresentSearchSkipsUnsupported(families, i);
      return Err(QueueFamilyNotSupported);
    }
  }

  /** The map built by inserting `entries` in order: a later entry for the
      same family index replaces the earlier priority. */
  function Inserted(entries: seq<IndexPriority>): (m: map<u32, real>)
    ensures m.Keys == set e | e in entries :: e.index
    ensures |entries| > 0 ==> m[entries[|entries| - 1].index] == entries[|entries| - 1].priority
  {
    if entries == [] then map[]
    else
      var last := entries[|entries| - 1];
      var front := entries[..|entries| - 1];
      assert forall e :: e in entries <==> e in front || e == last;
      Inserted(front)[last.index := last.priority]
  }

  /** merge_queue_family_index_and_priority: insert the graphics and then the
      present (index, priority) into a map keyed by family index. The program
      drains the map into a Vec in hash order; the model returns the map. */
  method MergeQueueFamilyIndexAndPriority(info: QueueInfo) returns (m: map<u32, real>)
    ensures m == Inserted([info.graphicFamilyIndexPriority, info.presentFamilyIndexPriority])
  {
    var entries := [info.graphicFamilyIndexPriority, info.presentFamilyIndexPriority];
    m := map[];
    var i := 0;
    while i < |entries|
      invariant 0 <= i <= |entries|
      invariant m == Inserted(entries[..i])
    {
      assert entries[..i + 1][..i] == entries[..i];
      m := m[entries[i].index := entries[i].priority];
      i := i + 1;
    }
    assert entries[..i] == entries;
  }

  /** One entry per distinct family index: a single entry when the graphics
      and present families coincide, two otherwise; when they coincide the
      present priority is the one kept, since it is inserted second. */
  lemma MergeOneEntryPerFamily(info: QueueInfo)
    ensures var g, p := info.graphicFamilyIndexPriority, info.presentFamilyIndexPriority;
      var m := Inserted([g, p]);
      && m.Keys == {g.index, p.index}
      && (|m| == 1 <==> g.index == p.index)
      && (|m| == 2 <==> g.index != p.index)
      && m[p.index] == p.priority
      && (g.index != p.index ==> m[g.index] == g.priority)
  {
    var g, p := info.graphicFamilyIndexPriority, info.presentFamilyIndexPriority;
    var m := Inserted([g, p]);
    assert [g, p][..1] == [g];
    assert m == Inserted([g])[p.index := p.priority];
    assert Inserted([g]) == map[g.index := g.priority] by {
      assert [g][..0] == [];
    }
    if g.index == p.index {
      assert m.Keys == {p.index};
    } else {
      assert m.Keys == {g.index} + {p.index};
      assert |m.Keys| == 2;
    }
  }
}
