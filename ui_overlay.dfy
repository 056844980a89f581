/** The UI overlay's per-frame geometry: one vertex and one index buffer per
    frame slot, resized and refilled from imgui's draw data by `update`, and
    the indexed draws `draw` records from the same draw data. Vertices and
    indices are opaque values; imgui's draw data is an input. */
module UiOverlay {
  import opened Vk
  import opened Driver
  import FixedStuff

  /** imgui::DrawVert and imgui::DrawIdx, opaque. */
  type DrawVert = nat
  type DrawIdx = nat

  /** imgui::DrawCmd: only Elements draws; the other commands (render state
      reset, raw callbacks) record nothing. */
  datatype DrawCmd = Elements(count: nat) | ResetRenderState | RawCallback

  datatype DrawList = DrawList(vtxBuffer: seq<DrawVert>, idxBuffer: seq<DrawIdx>, commands: seq<DrawCmd>)

  datatype DrawData = DrawData(totalVtxCount: nat, totalIdxCount: nat, drawLists: seq<DrawList>)

  /** The lists joined end to end. */
  function Concat(parts: seq<seq<nat>>): (r: seq<nat>)
  {
    if parts == [] then [] else Concat(parts[..|parts| - 1]) + parts[|parts| - 1]
  }

  lemma {:induction false} ConcatPrefix(parts: seq<seq<nat>>, i: nat)
    requires i <= |parts|
    ensures Concat(parts[..i]) <= Concat(parts)
  {
    if i < |parts| {
      var front := parts[..|parts| - 1];
      assert front[..i] == parts[..i];
      ConcatPrefix(front, i);
    } else {
      assert parts[..i] == parts;
    }
  }

  function Vertices(lists: seq<DrawList>): (r: seq<seq<DrawVert>>)
    ensures |r| == |lists| && forall k | 0 <= k < |lists| :: r[k] == lists[k].vtxBuffer
  {
    seq(|lists|, k requires 0 <= k < |lists| => lists[k].vtxBuffer)
  }

  function Indices(lists: seq<DrawList>): (r: seq<seq<DrawIdx>>)
    ensures |r| == |lists| && forall k | 0 <= k < |lists| :: r[k] == lists[k].idxBuffer
  {
    seq(|lists|, k requires 0 <= k < |lists| => lists[k].idxBuffer)
  }

  /** imgui's guarantee: the totals are the lengths of all lists' buffers. */
  predicate WellFormed(d: DrawData) {
    && d.totalVtxCount == |Concat(Vertices(d.drawLists))|
    && d.totalIdxCount == |Concat(Indices(d.drawLists))|
  }

  /** One slot's buffer: its handles, its size in elements, the elements in
      its memory, and whether that memory is mapped. */
  datatype SlotBuffer = SlotBuffer(buffer: Handle, memory: Handle, elementNum: nat, contents: seq<nat>, mapped: bool)

  predicate SlotReady(b: SlotBuffer) {
    |b.contents| == b.elementNum && !b.mapped
  }

  /** The calls replacing `prev` by `next`: the new buffer is created before the
      assignment drops the old one. */
  function ReplaceCalls(prev: SlotBuffer, next: SlotBuffer): (calls: seq<Call>)
    ensures DestroyedHandles(calls) == [prev.buffer, prev.memory]
  {
    assert [Created(BufferObject, next.buffer), Created(DeviceMemory, next.memory)][1..] == [Created(DeviceMemory, next.memory)];
    assert [Destroyed(BufferObject, prev.buffer), Destroyed(DeviceMemory, prev.memory)][1..] == [Destroyed(DeviceMemory, prev.memory)];
    DestroyedHandlesAppend([Created(BufferObject, next.buffer), Created(DeviceMemory, next.memory)],
                           [Destroyed(BufferObject, prev.buffer), Destroyed(DeviceMemory, prev.memory)]);
    [Created(BufferObject, next.buffer), Created(DeviceMemory, next.memory),
     Destroyed(BufferObject, prev.buffer), Destroyed(DeviceMemory, prev.memory)]
  }

  /** vertex_buffer / indice_buffer: a host-visible buffer of `n` elements.
      Its contents before the first load are never read; they are zero here. */
  method NewSlotBuffer(device: Device, n: nat) returns (b: SlotBuffer)
    modifies device
    ensures b.elementNum == n && SlotReady(b)
    ensures b.buffer == old(device.nextHandle) && b.memory == b.buffer + 1
    ensures device.nextHandle == old(device.nextHandle) + 2
    ensures device.calls == old(device.calls) + [Created(BufferObject, b.buffer), Created(DeviceMemory, b.memory)]
  {
    var h := device.Create(BufferObject);
    var m := device.Create(DeviceMemory);
    b := SlotBuffer(h, m, n, seq(n, _ => 0), false);
  }

  /** Replace `prev` by a new buffer of `n` elements, dropping `prev`. */
  method ReplaceSlotBuffer(device: Device, prev: SlotBuffer, n: nat) returns (b: SlotBuffer)
    modifies device
    ensures b.elementNum == n && SlotReady(b)
    ensures device.calls == old(device.calls) + ReplaceCalls(prev, b)
  {
    b := NewSlotBuffer(device, n);
    device.Destroy(BufferObject, prev.buffer);
    device.Destroy(DeviceMemory, prev.memory);
  }

  /** load_data_when_mapped: the data overwrites the elements from `offset`. */
  function Write(contents: seq<nat>, offset: nat, data: seq<nat>): (r: seq<nat>)
    requires offset + |data| <= |contents|
    ensures |r| == |contents|
    ensures r[..offset] == contents[..offset]
    ensures r[offset..offset + |data|] == data
    ensures r[offset + |data|..] == contents[offset + |data|..]
  {
    contents[..offset] + data + contents[offset + |data|..]
  }

  /** One step of loading: writing part `i` at the end of the parts already
      written extends the written prefix by that part. */
  lemma {:induction false} WriteNextPart(parts: seq<seq<nat>>, i: nat, memory: seq<nat>, base: seq<nat>)
    requires i < |parts| && |base| == |Concat(parts)|
    requires |Concat(parts[..i])| <= |base|
    requires memory == Concat(parts[..i]) + base[|Concat(parts[..i])|..]
    ensures |Concat(parts[..i + 1])| == |Concat(parts[..i])| + |parts[i]| <= |base|
    ensures Write(memory, |Concat(parts[..i])|, parts[i]) == Concat(parts[..i + 1]) + base[|Concat(parts[..i + 1])|..]
  {
    var offset := |Concat(parts[..i])|;
    assert parts[..i + 1][..i] == parts[..i];
    assert Concat(parts[..i + 1]) == Concat(parts[..i]) + parts[i];
    ConcatPrefix(parts, i + 1);
    assert memory[..offset] == Concat(parts[..i]);
    assert memory[offset + |parts[i]|..] == base[offset + |parts[i]|..];
  }

  /** What cmd_draw_indexed and the buffer binding record. */
  datatype Recorded =
    | BindBuffers(vertexBuffer: Handle, indexBuffer: Handle)
    | DrawIndexed(indexCount: nat, firstIndex: nat, vertexOffset: nat)

  /** The index count of the Elements commands of one list. */
  function ElementsCount(cmds: seq<DrawCmd>): nat {
    if cmds == [] then 0
    else ElementsCount(cmds[..|cmds| - 1]) + (if cmds[|cmds| - 1].Elements? then cmds[|cmds| - 1].count else 0)
  }

  /** The draws of one list's commands, the first at index `firstIndex`, all
      with the list's vertex offset. */
  function ListDraws(cmds: seq<DrawCmd>, firstIndex: nat, vertexOffset: nat): (r: seq<Recorded>)
    ensures forall k | 0 <= k < |r| :: r[k].DrawIndexed? && r[k].vertexOffset == vertexOffset
  {
    if cmds == [] then []
    else
      var last := cmds[|cmds| - 1];
      ListDraws(cmds[..|cmds| - 1], firstIndex, vertexOffset)
      + (if last.Elements? then [DrawIndexed(last.count, firstIndex + ElementsCount(cmds[..|cmds| - 1]), vertexOffset)] else [])
  }

  /** The index count of all lists' Elements commands. */
  function ListsElementsCount(lists: seq<DrawList>): nat {
    if lists == [] then 0
    else ListsElementsCount(lists[..|lists| - 1]) + ElementsCount(lists[|lists| - 1].commands)
  }

  /** The draws of all lists: each list's first draw starts where the previous
      list's Elements commands ended, at the vertex offset of its own vertices. */
  function DataDraws(lists: seq<DrawList>): (r: seq<Recorded>)
    ensures forall k | 0 <= k < |r| :: r[k].DrawIndexed?
  {
    if lists == [] then []
    else
      var front := lists[..|lists| - 1];
      DataDraws(front)
      + ListDraws(lists[|lists| - 1].commands, ListsElementsCount(front), |Concat(Vertices(front))|)
  }

  /** The draws cover the index range [start, end) in order, without gap or
      overlap: each draw starts where the previous one ended. */
  predicate Tiles(draws: seq<Recorded>, start: nat, end: nat)
    decreases |draws|
  {
    if draws == [] then start == end
    else draws[0].DrawIndexed? && draws[0].firstIndex == start
         && Tiles(draws[1..], start + draws[0].indexCount, end)
  }

  lemma {:induction false} TilesAppend(a: seq<Recorded>, b: seq<Recorded>, start: nat, mid: nat, end: nat)
    requires Tiles(a, start, mid) && Tiles(b, mid, end)
    ensures Tiles(a + b, start, end)
    decreases |a|
  {
    if a == [] {
      assert a + b == b;
    } else {
      assert (a + b)[1..] == a[1..] + b;
      TilesAppend(a[1..], b, start + a[0].indexCount, mid, end);
    }
  }

  lemma {:induction false} ListDrawsTile(cmds: seq<DrawCmd>, firstIndex: nat, vertexOffset: nat)
    ensures Tiles(ListDraws(cmds, firstIndex, vertexOffset), firstIndex, firstIndex + ElementsCount(cmds))
  {
    if cmds != [] {
      var front := cmds[..|cmds| - 1];
      var last := cmds[|cmds| - 1];
      ListDrawsTile(front, firstIndex, vertexOffset);
      var mid := firstIndex + ElementsCount(front);
      if last.Elements? {
        var d := [DrawIndexed(last.count, mid, vertexOffset)];
        assert d[1..] == [];
        TilesAppend(ListDraws(front, firstIndex, vertexOffset), d, firstIndex, mid, mid + last.count);
      } else {
        assert ElementsCount(cmds) == ElementsCount(front);
        assert ListDraws(cmds, firstIndex, vertexOffset) == ListDraws(front, firstIndex, vertexOffset) + [];
        assert ListDraws(front, firstIndex, vertexOffset) + [] == ListDraws(front, firstIndex, vertexOffset);
      }
    }
  }

  /** The draws of a frame use the index buffer from 0 up to the total count
      of their Elements commands contiguously, one draw after the other. */
  lemma {:induction false} DrawsTileIndexBuffer(lists: seq<DrawList>)
    ensures Tiles(DataDraws(lists), 0, ListsElementsCount(lists))
  {
    if lists != [] {
      var front := lists[..|lists| - 1];
      var last := lists[|lists| - 1];
      DrawsTileIndexBuffer(front);
      var mid := ListsElementsCount(front);
      var offset := |Concat(Vertices(front))|;
      ListDrawsTile(last.commands, mid, offset);
      TilesAppend(DataDraws(front), ListDraws(last.commands, mid, offset), 0, mid, mid + ElementsCount(last.commands));
    }
  }

  /** When imgui's Elements counts add up to each list's index count (its own
      guarantee), the draws cover exactly the indices `update` loaded. */
  lemma {:induction false} ElementsCoverLoadedIndices(lists: seq<DrawList>)
    requires forall k | 0 <= k < |lists| :: ElementsCount(lists[k].commands) == |lists[k].idxBuffer|
    ensures ListsElementsCount(lists) == |Concat(Indices(lists))|
  {
    if lists != [] {
      var front := lists[..|lists| - 1];
      ElementsCoverLoadedIndices(front);
      assert Indices(lists)[..|lists| - 1] == Indices(front);
    }
  }

  class UIOverlay {
    const device: Device
    /** Per frame slot: the vertex and the index buffer. */
    var vertexBuffers: seq<SlotBuffer>
    var indiceBuffers: seq<SlotBuffer>

    /** One buffer of each kind per frame slot, all sized to their contents
        and unmapped between calls. */
    predicate Valid()
      reads this
    {
      && |vertexBuffers| == FixedStuff.MAX_FRAMES_IN_FLIGHT
      && |indiceBuffers| == FixedStuff.MAX_FRAMES_IN_FLIGHT
      && (forall s | 0 <= s < |vertexBuffers| :: SlotReady(vertexBuffers[s]))
      && (forall s | 0 <= s < |indiceBuffers| :: SlotReady(indiceBuffers[s]))
    }

    /** The buffer part of UIOverlay::new: every slot starts with 1-element
        vertex and index buffers (vertex buffers first). */
    constructor(device: Device)
      modifies device
      ensures this.device == device && Valid()
      ensures forall s | 0 <= s < FixedStuff.MAX_FRAMES_IN_FLIGHT ::
        vertexBuffers[s].elementNum == 1 && indiceBuffers[s].elementNum == 1
      ensures device.calls == old(device.calls) + [
        Created(BufferObject, vertexBuffers[0].buffer), Created(DeviceMemory, vertexBuffers[0].memory),
        Created(BufferObject, vertexBuffers[1].buffer), Created(DeviceMemory, vertexBuffers[1].memory),
        Created(BufferObject, indiceBuffers[0].buffer), Created(DeviceMemory, indiceBuffers[0].memory),
        Created(BufferObject, indiceBuffers[1].buffer), Created(DeviceMemory, indiceBuffers[1].memory)]
    {
      this.device := device;
      var v0 := NewSlotBuffer(device, 1);
      var v1 := NewSlotBuffer(device, 1);
      var i0 := NewSlotBuffer(device, 1);
      var i1 := NewSlotBuffer(device, 1);
      vertexBuffers := [v0, v1];
      indiceBuffers := [i0, i1];
    }

    /** The loop of `update` writing each draw list at the running offsets of
        the mapped slot buffers. */
    method LoadDrawLists(frameIndex: nat, lists: seq<DrawList>)
      requires frameIndex < |vertexBuffers| && frameIndex < |indiceBuffers|
      requires |vertexBuffers[frameIndex].contents| == |Concat(Vertices(lists))|
      requires |indiceBuffers[frameIndex].contents| == |Concat(Indices(lists))|
      modifies this
      ensures vertexBuffers == old(vertexBuffers)[frameIndex := old(vertexBuffers[frameIndex]).(contents := Concat(Vertices(lists)))]
      ensures indiceBuffers == old(indiceBuffers)[frameIndex := old(indiceBuffers[frameIndex]).(contents := Concat(Indices(lists)))]
    {
      // the mapped memory of the slot's two buffers
      var vertexMemory, indiceMemory := vertexBuffers[frameIndex].contents, indiceBuffers[frameIndex].contents;
      ghost var vertexBase, indiceBase := vertexMemory, indiceMemory;
      ghost var vertexParts, indiceParts := Vertices(lists), Indices(lists);
      var vertexOffset, indiceOffset := 0, 0;
      var i := 0;
      assert vertexParts[..0] == [] && indiceParts[..0] == [];
      assert vertexMemory[0..] == vertexMemory && indiceMemory[0..] == indiceMemory;
      while i < |lists|
        invariant 0 <= i <= |lists|
        invariant vertexBuffers == old(vertexBuffers) && indiceBuffers == old(indiceBuffers)
        invariant vertexOffset == |Concat(vertexParts[..i])| <= |vertexBase|
        invariant indiceOffset == |Concat(indiceParts[..i])| <= |indiceBase|
        invariant vertexMemory == Concat(vertexParts[..i]) + vertexBase[vertexOffset..]
        invariant indiceMemory == Concat(indiceParts[..i]) + indiceBase[indiceOffset..]
      {
        WriteNextPart(vertexParts, i, vertexMemory, vertexBase);
        WriteNextPart(indiceParts, i, indiceMemory, indiceBase);
        vertexMemory := Write(vertexMemory, vertexOffset, lists[i].vtxBuffer);
        vertexOffset := vertexOffset + |lists[i].vtxBuffer|;
        indiceMemory := Write(indiceMemory, indiceOffset, lists[i].idxBuffer);
        indiceOffset := indiceOffset + |lists[i].idxBuffer|;
        i := i + 1;
      }
      assert vertexParts[..i] == vertexParts && indiceParts[..i] == indiceParts;
      assert vertexMemory == Concat(vertexParts);
      assert indiceMemory == Concat(indiceParts);
      vertexBuffers := vertexBuffers[frameIndex := vertexBuffers[frameIndex].(contents := vertexMemory)];
      indiceBuffers := indiceBuffers[frameIndex := indiceBuffers[frameIndex].(contents := indiceMemory)];
    }

    /** The resizing part of `update`: each of the slot's buffers is replaced
        by one of exactly the needed size iff its size differs. */
    method ResizeSlot(frameIndex: nat, vtxCount: nat, idxCount: nat) returns (resized: bool)
      requires Valid() && frameIndex < FixedStuff.MAX_FRAMES_IN_FLIGHT
      modifies this, device
      ensures Valid()
      ensures var vResize := old(vertexBuffers[frameIndex].elementNum) != vtxCount;
        var iResize := old(indiceBuffers[frameIndex].elementNum) != idxCount;
        && (resized <==> vResize || iResize)
        && vertexBuffers[frameIndex].elementNum == vtxCount
        && indiceBuffers[frameIndex].elementNum == idxCount
        && (!vResize ==> vertexBuffers[frameIndex] == old(vertexBuffers[frameIndex]))
        && (!iResize ==> indiceBuffers[frameIndex] == old(indiceBuffers[frameIndex]))
        && device.calls == old(device.calls)
             + (if vResize then ReplaceCalls(old(vertexBuffers[frameIndex]), vertexBuffers[frameIndex]) else [])
             + (if iResize then ReplaceCalls(old(indiceBuffers[frameIndex]), indiceBuffers[frameIndex]) else [])
      ensures forall s | 0 <= s < FixedStuff.MAX_FRAMES_IN_FLIGHT && s != frameIndex ::
        vertexBuffers[s] == old(vertexBuffers[s]) && indiceBuffers[s] == old(indiceBuffers[s])
    {
      resized := false;
      if vertexBuffers[frameIndex].elementNum != vtxCount {
        var nb := ReplaceSlotBuffer(device, vertexBuffers[frameIndex], vtxCount);
        vertexBuffers := vertexBuffers[frameIndex := nb];
        resized := true;
      }
      if indiceBuffers[frameIndex].elementNum != idxCount {
        var nb := ReplaceSlotBuffer(device, indiceBuffers[frameIndex], idxCount);
        indiceBuffers := indiceBuffers[frameIndex := nb];
        resized := true;
      }
    }

    /** map_memory_all (true) or unmap_memory (false) on both of the slot's buffers. */
    method SetSlotMapped(frameIndex: nat, mapped: bool)
      requires frameIndex < |vertexBuffers| && frameIndex < |indiceBuffers|
      modifies this
      ensures vertexBuffers == old(vertexBuffers)[frameIndex := old(vertexBuffers[frameIndex]).(mapped := mapped)]
      ensures indiceBuffers == old(indiceBuffers)[frameIndex := old(indiceBuffers[frameIndex]).(mapped := mapped)]
    {
      vertexBuffers := vertexBuffers[frameIndex := vertexBuffers[frameIndex].(mapped := mapped)];
      indiceBuffers := indiceBuffers[frameIndex := indiceBuffers[frameIndex].(mapped := mapped)];
    }

    /** UIOverlay::update for slot `frameIndex`. With no vertices or no indices
        nothing happens. Otherwise each of the slot's buffers is replaced by
        one of exactly the needed size iff its size differs; the result says
        whether anything was replaced (the command buffers must be
        re-recorded). The slot's buffers then hold the draw lists end to end,
        and are unmapped again; the other slot is untouched. */
    method Update(frameIndex: nat, drawData: DrawData) returns (updateCommandBuffers: bool)
      requires Valid() && frameIndex < FixedStuff.MAX_FRAMES_IN_FLIGHT && WellFormed(drawData)
      modifies this, device
      ensures Valid()
      ensures drawData.totalVtxCount == 0 || drawData.totalIdxCount == 0 ==>
        && !updateCommandBuffers
        && vertexBuffers == old(vertexBuffers) && indiceBuffers == old(indiceBuffers)
        && device.calls == old(device.calls)
      ensures drawData.totalVtxCount > 0 && drawData.totalIdxCount > 0 ==>
        var vResize := old(vertexBuffers[frameIndex].elementNum) != drawData.totalVtxCount;
        var iResize := old(indiceBuffers[frameIndex].elementNum) != drawData.totalIdxCount;
        && (updateCommandBuffers <==> vResize || iResize)
        && vertexBuffers[frameIndex].elementNum == drawData.totalVtxCount
        && indiceBuffers[frameIndex].elementNum == drawData.totalIdxCount
        && vertexBuffers[frameIndex].contents == Concat(Vertices(drawData.drawLists))
        && indiceBuffers[frameIndex].contents == Concat(Indices(drawData.drawLists))
        && (!vResize ==> vertexBuffers[frameIndex].buffer == old(vertexBuffers[frameIndex].buffer))
        && (!iResize ==> indiceBuffers[frameIndex].buffer == old(indiceBuffers[frameIndex].buffer))
        && device.calls == old(device.calls)
             + (if vResize then ReplaceCalls(old(vertexBuffers[frameIndex]), vertexBuffers[frameIndex]) else [])
             + (if iResize then ReplaceCalls(old(indiceBuffers[frameIndex]), indiceBuffers[frameIndex]) else [])
      ensures forall s | 0 <= s < FixedStuff.MAX_FRAMES_IN_FLIGHT && s != frameIndex ::
        vertexBuffers[s] == old(vertexBuffers[s]) && indiceBuffers[s] == old(indiceBuffers[s])
    {
      if drawData.totalVtxCount == 0 || drawData.totalIdxCount == 0 {
        return false;
      }
      updateCommandBuffers := ResizeSlot(frameIndex, drawData.totalVtxCount, drawData.totalIdxCount);
      ghost var vb, ib := vertexBuffers[frameIndex], indiceBuffers[frameIndex];
      SetSlotMapped(frameIndex, true);
      LoadDrawLists(frameIndex, drawData.drawLists);
      SetSlotMapped(frameIndex, false);
      assert vertexBuffers[frameIndex] == vb.(contents := Concat(Vertices(drawData.drawLists)));
      assert indiceBuffers[frameIndex] == ib.(contents := Concat(Indices(drawData.drawLists)));
    }

    /** UIOverlay::draw for slot `frameIndex`: nothing without draw lists;
        otherwise the slot's buffers are bound and every Elements command is
        drawn at the running index offset, with the vertex offset of its
        list. The scissor rectangles and push constants (floats) are not
        modelled. */
    method Draw(frameIndex: nat, drawData: DrawData) returns (recorded: seq<Recorded>)
      requires Valid() && frameIndex < FixedStuff.MAX_FRAMES_IN_FLIGHT
      ensures drawData.drawLists == [] ==> recorded == []
      ensures drawData.drawLists != [] ==>
        recorded == [BindBuffers(vertexBuffers[frameIndex].buffer, indiceBuffers[frameIndex].buffer)]
                    + DataDraws(drawData.drawLists)
    {
      var lists := drawData.drawLists;
      if |lists| == 0 {
        return [];
      }
      var draws := RecordDataDraws(lists);
      recorded := [BindBuffers(vertexBuffers[frameIndex].buffer, indiceBuffers[frameIndex].buffer)] + draws;
    }
  }

  /** The loop of `draw` over the draw lists, with the running index and
      vertex offsets. */
  method RecordDataDraws(lists: seq<DrawList>) returns (recorded: seq<Recorded>)
    ensures recorded == DataDraws(lists)
  {
    recorded := [];
    var vertexOffset, indiceOffset := 0, 0;
    var i := 0;
    assert Vertices(lists[..0]) == [];
    while i < |lists|
      invariant 0 <= i <= |lists|
      invariant vertexOffset == |Concat(Vertices(lists[..i]))|
      invariant indiceOffset == ListsElementsCount(lists[..i])
      invariant recorded == DataDraws(lists[..i])
    {
      var draws, nextOffset := RecordListDraws(lists[i].commands, indiceOffset, vertexOffset);
      DrawStep(lists, i);
      recorded := recorded + draws;
      indiceOffset := nextOffset;
      vertexOffset := vertexOffset + |lists[i].vtxBuffer|;
      i := i + 1;
    }
    assert lists[..i] == lists;
  }

  /** How the accumulated draws and offsets grow by one list. */
  lemma DrawStep(lists: seq<DrawList>, i: nat)
    requires i < |lists|
    ensures DataDraws(lists[..i + 1]) == DataDraws(lists[..i])
      + ListDraws(lists[i].commands, ListsElementsCount(lists[..i]), |Concat(Vertices(lists[..i]))|)
    ensures ListsElementsCount(lists[..i + 1]) == ListsElementsCount(lists[..i]) + ElementsCount(lists[i].commands)
    ensures |Concat(Vertices(lists[..i + 1]))| == |Concat(Vertices(lists[..i]))| + |lists[i].vtxBuffer|
  {
    assert lists[..i + 1][..i] == lists[..i];
    assert Vertices(lists[..i + 1])[..i] == Vertices(lists[..i]);
  }

  /** The inner loop of `draw` over one list's commands: an indexed draw per
      Elements command at the running index offset, which then advances by
      its count. */
  method RecordListDraws(cmds: seq<DrawCmd>, firstIndex: nat, vertexOffset: nat)
    returns (draws: seq<Recorded>, indiceOffset: nat)
    ensures draws == ListDraws(cmds, firstIndex, vertexOffset)
    ensures indiceOffset == firstIndex + ElementsCount(cmds)
  {
    draws := [];
    indiceOffset := firstIndex;
    var j := 0;
    while j < |cmds|
      invariant 0 <= j <= |cmds|
      invariant indiceOffset == firstIndex + ElementsCount(cmds[..j])
      invariant draws == ListDraws(cmds[..j], firstIndex, vertexOffset)
    {
      assert cmds[..j + 1][..j] == cmds[..j];
      match cmds[j] {
        case Elements(count) =>
          draws := draws + [DrawIndexed(count, indiceOffset, vertexOffset)];
          indiceOffset := indiceOffset + count;
        case ResetRenderState =>
        case RawCallback =>
      }
      j := j + 1;
    }
    assert cmds[..j] == cmds;
  }
}
