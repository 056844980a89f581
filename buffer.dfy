/** Buffer<T>: a driver buffer with its bound memory, sized in whole elements
    of T, with the host-mapping protocol (map, write, unmap), whole-buffer
    copies and the memory-type search used to allocate it.

    The memory's bytes are part of the model so that load_data and copy_to
    can state what they write; the initial content of fresh memory is
    undefined in Vulkan and is an input here. Driver answers (memory
    requirements, memory types, map results) are inputs too. */
module Buffers {
  import opened Vk
  import opened Driver

  type Byte = bv8

  /** vk::MemoryRequirements */
  datatype MemoryRequirements = MemoryRequirements(size: u64, alignment: u64, memoryTypeBits: Flags)

  /** The memory-type table of vk::PhysicalDeviceMemoryProperties: the
      property flags of each of the VK_MAX_MEMORY_TYPES (32) entries and the
      number of entries in use. */
  const MAX_MEMORY_TYPES: nat := 32
  datatype MemoryProperties = MemoryProperties(memoryTypeCount: u32, typeFlags: seq<Flags>)

  predicate WellFormedMemoryProperties(m: MemoryProperties) {
    |m.typeFlags| == MAX_MEMORY_TYPES && m.memoryTypeCount <= MAX_MEMORY_TYPES
  }

  /** Memory type i is allowed by the requirement's bit mask and offers every
      requested property. */
  predicate Suitable(req: MemoryRequirements, mem: MemoryProperties, properties: Flags, i: nat)
    requires WellFormedMemoryProperties(mem) && i < MAX_MEMORY_TYPES
  {
    && req.memoryTypeBits & Bit(i) != 0
    && mem.typeFlags[i] & properties == properties
  }

  /** `1 << i` as a 32-bit mask. */
  function Bit(i: nat): bv32
    requires i < 32
  {
    (1 as bv32) << i
  }

  /** memory_helper::find_memory_type: the lowest suitable memory type index,
      or MemoryTypeNotSupported. */
  method FindMemoryType(req: MemoryRequirements, mem: MemoryProperties, properties: Flags) returns (r: Result<u32>)
    requires WellFormedMemoryProperties(mem)
    ensures r.Ok? ==>
      && r.value < mem.memoryTypeCount
      && Suitable(req, mem, properties, r.value)
      && forall j | 0 <= j < r.value :: !Suitable(req, mem, properties, j)
    ensures r.Err? ==>
      && r.error == MemoryTypeNotSupported
      && forall j | 0 <= j < mem.memoryTypeCount :: !Suitable(req, mem, properties, j)
  {
    var i: u32 := 0;
    while i < mem.memoryTypeCount
      invariant i <= mem.memoryTypeCount
      invariant forall j | 0 <= j < i :: !Suitable(req, mem, properties, j)
    {
      if Suitable(req, mem, properties, i) {
        return Ok(i);
      }
      i := i + 1;
    }
    return Err(MemoryTypeNotSupported);
  }

  /** vk::DescriptorBufferInfo */
  datatype DescriptorBufferInfo = DescriptorBufferInfo(buffer: Handle, offset: u64, range: u64)

  /** Byte k of the buffer lies in the descriptor's range. */
  predicate Covers(d: DescriptorBufferInfo, k: int) {
    d.offset <= k < d.offset + d.range
  }

  /** The host mapping currently held: Some((offset, size)) while mapped. */
  datatype MappedRange = MappedRange(offset: u64, size: u64)

  /** `bytes` written over `memory` at `offset`. */
  function Overwrite(memory: seq<Byte>, offset: nat, bytes: seq<Byte>): (r: seq<Byte>)
    requires offset + |bytes| <= |memory|
    ensures |r| == |memory|
    ensures r[offset..offset + |bytes|] == bytes
    ensures forall k | 0 <= k < |memory| && !(offset <= k < offset + |bytes|) :: r[k] == memory[k]
  {
    memory[..offset] + bytes + memory[offset + |bytes|..]
  }

  class Buffer {
    const device: Device
    const buffer: Handle
    const deviceMemory: Handle
    /** size_of::<T>() */
    const elementSize: nat
    const sizeInBytes: u64
    const alignment: u64
    const usage: Flags
    const properties: Flags
    var mapped: Option<MappedRange>
    /** The bytes of the bound memory covered by the buffer. */
    var memory: seq<Byte>

    predicate Valid()
      reads this
    {
      && elementSize > 0
      && alignment > 0
      && |memory| == sizeInBytes
      && (mapped.Some? ==> mapped.value.offset + mapped.value.size <= sizeInBytes)
    }

    constructor Assemble(device: Device, buffer: Handle, deviceMemory: Handle, elementSize: nat,
                         sizeInBytes: u64, alignment: u64, usage: Flags, properties: Flags,
                         memory: seq<Byte>)
      ensures this.device == device && this.buffer == buffer && this.deviceMemory == deviceMemory
      ensures this.elementSize == elementSize && this.sizeInBytes == sizeInBytes
      ensures this.alignment == alignment && this.usage == usage && this.properties == properties
      ensures this.mapped == None && this.memory == memory
    {
      this.device := device;
      this.buffer := buffer;
      this.deviceMemory := deviceMemory;
      this.elementSize := elementSize;
      this.sizeInBytes := sizeInBytes;
      this.alignment := alignment;
      this.usage := usage;
      this.properties := properties;
      this.mapped := None;
      this.memory := memory;
    }

    /** Buffer::new: `elementNum` elements of `elementSize` bytes, with memory
        of the first suitable type. Fails with MemoryTypeNotSupported when no
        memory type fits, before any memory is allocated. */
    static method New(device: Device, elementNum: nat, elementSize: nat, usage: Flags, properties: Flags,
                      req: MemoryRequirements, mem: MemoryProperties, initialMemory: seq<Byte>)
      returns (r: Result<Buffer>)
      requires elementSize > 0 && elementNum * elementSize <= U64_MAX
      requires req.alignment > 0
      requires WellFormedMemoryProperties(mem)
      requires |initialMemory| == elementNum * elementSize
      modifies device
      ensures r.Err? ==> r.error == MemoryTypeNotSupported
      ensures r.Err? <==> forall j | 0 <= j < mem.memoryTypeCount :: !Suitable(req, mem, properties, j)
      ensures r.Err? ==> device.calls == old(device.calls) + [Created(BufferObject, old(device.nextHandle))]
      ensures r.Err? ==> device.nextHandle == old(device.nextHandle) + 1
      ensures r.Ok? ==>
        && fresh(r.value) && r.value.Valid() && r.value.device == device
        && r.value.buffer == old(device.nextHandle) && r.value.deviceMemory == old(device.nextHandle) + 1
        && device.nextHandle == old(device.nextHandle) + 2
        && r.value.sizeInBytes == elementNum * elementSize
        && r.value.elementSize == elementSize
        && r.value.mapped == None
        && r.value.alignment == req.alignment
        && r.value.usage == usage && r.value.properties == properties
        && device.calls == old(device.calls) + [Created(BufferObject, r.value.buffer),
                                                Created(DeviceMemory, r.value.deviceMemory)]
    {
      var size := elementNum * elementSize;
      var b := device.Create(BufferObject);
      var memoryType := FindMemoryType(req, mem, properties);
      if memoryType.Err? {
        return Err(memoryType.error);
      }
      var m := device.Create(DeviceMemory);
      var buf := new Buffer.Assemble(device, b, m, elementSize, size, req.alignment, usage, properties, initialMemory);
      return Ok(buf);
    }

    /** element_num: the size in whole elements. */
    function ElementNum(): (n: nat)
      requires Valid()
      reads this
      ensures n * elementSize <= sizeInBytes < (n + 1) * elementSize
    {
      sizeInBytes / elementSize
    }

    function Mapped(): bool
      reads this
    {
      mapped.Some?
    }

    /** descriptor(offset, range) */
    function Descriptor(offset: u64, range: u64): (d: DescriptorBufferInfo)
      reads this
      ensures d.buffer == buffer && d.offset == offset && d.range == range
    {
      DescriptorBufferInfo(buffer, offset, range)
    }

    /** descriptor_default: the whole buffer. */
    function DescriptorDefault(): (d: DescriptorBufferInfo)
      reads this
      ensures d.buffer == buffer
      ensures forall k: int :: Covers(d, k) <==> 0 <= k < sizeInBytes
    {
      Descriptor(0, sizeInBytes)
    }

    /** map_memory: the buffer must be unmapped and the range inside it; on
        success the buffer is mapped over that range. `driver` is the
        driver's answer to vkMapMemory. */
    method MapMemory(offset: u64, size: u64, driver: VkResult<()>) returns (r: Result<()>)
      requires Valid() && !Mapped()
      requires offset + size <= sizeInBytes
      modifies this
      ensures Valid() && memory == old(memory)
      ensures driver.Failure? ==> r == Err(VkError(driver.code)) && mapped == None
      ensures driver.Success? ==> r == Ok(()) && mapped == Some(MappedRange(offset, size))
    {
      if driver.Failure? {
        return Err(VkError(driver.code));
      }
      mapped := Some(MappedRange(offset, size));
      return Ok(());
    }

    /** map_memory_all */
    method MapMemoryAll(driver: VkResult<()>) returns (r: Result<()>)
      requires Valid() && !Mapped()
      modifies this
      ensures Valid() && memory == old(memory)
      ensures driver.Failure? ==> r == Err(VkError(driver.code)) && mapped == None
      ensures driver.Success? ==> r == Ok(()) && mapped == Some(MappedRange(0, sizeInBytes))
    {
      r := MapMemory(0, sizeInBytes, driver);
    }

    /** unmap_memory: the buffer must be mapped; afterwards it is not. */
    method UnmapMemory()
      requires Valid() && Mapped()
      modifies this
      ensures Valid() && !Mapped() && memory == old(memory)
    {
      mapped := None;
    }

    /** load_data: write `data`'s bytes at an aligned offset through a
        temporary mapping. The buffer must be unmapped (map_memory asserts it)
        and the bytes must fit. */
    method LoadData(data: seq<Byte>, offset: u64, driver: VkResult<()>) returns (r: Result<()>)
      requires Valid() && !Mapped()
      requires offset % alignment == 0
      requires |data| + offset <= sizeInBytes
      modifies this
      ensures Valid() && !Mapped()
      ensures driver.Failure? ==> r == Err(VkError(driver.code)) && memory == old(memory)
      ensures driver.Success? ==> r == Ok(()) && memory == Overwrite(old(memory), offset, data)
    {
      var m := MapMemory(offset, |data|, driver);
      if m.Err? {
        return m;
      }
      memory := Overwrite(memory, offset, data);
      UnmapMemory();
      return Ok(());
    }

    /** copy_to: a one-time command copying the whole buffer into `dst`, which
        must have the same byte size. `submitAnswer` is the driver's answer
        to the one-time command (begin, end, submit and wait); on failure
        nothing is copied. */
    method CopyTo(dst: Buffer, submitAnswer: VkResult<()>) returns (r: Result<()>)
      requires Valid() && dst.Valid()
      requires sizeInBytes == dst.sizeInBytes
      modifies dst
      ensures dst.Valid() && dst.mapped == old(dst.mapped)
      ensures submitAnswer.Failure? ==> r == Err(VkError(submitAnswer.code)) && dst.memory == old(dst.memory)
      ensures submitAnswer.Success? ==> r == Ok(()) && dst.memory == old(memory)
    {
      if submitAnswer.Failure? {
        return Err(VkError(submitAnswer.code));
      }
      dst.memory := memory;
      return Ok(());
    }

    /** Drop: destroy the buffer and free its memory. */
    method Drop()
      modifies device
      ensures device.calls == old(device.calls) + [Destroyed(BufferObject, buffer), Destroyed(DeviceMemory, deviceMemory)]
    {
      device.Destroy(BufferObject, buffer);
      device.Destroy(DeviceMemory, deviceMemory);
    }
  }

  /** A buffer made for n elements reports n elements. */
  lemma ElementNumOfNew(n: nat, elementSize: nat)
    requires elementSize > 0
    ensures (n * elementSize) / elementSize == n
  {
    var q := (n * elementSize) / elementSize;
    var r := (n * elementSize) % elementSize;
    assert q * elementSize + r == n * elementSize;
    assert (n - q) * elementSize == r;
    MultipleBelowFactor(n - q, elementSize);
  }

  /** The only multiple of a positive factor in [0, factor) is 0 times it. */
  lemma MultipleBelowFactor(k: int, factor: nat)
    requires factor > 0 && 0 <= k * factor < factor
    ensures k == 0
  {
  }

  /** Loading data and reading back the written range yields the data. */
  lemma LoadThenRead(memory: seq<Byte>, offset: nat, data: seq<Byte>)
    requires offset + |data| <= |memory|
    ensures Overwrite(memory, offset, data)[offset..offset + |data|] == data
    ensures Overwrite(Overwrite(memory, offset, data), offset, data) == Overwrite(memory, offset, data)
  {
  }

  /** The memory properties of new_device_local's staging buffer. */
  const STAGING_PROPERTIES: Flags := MEMORY_HOST_VISIBLE | MEMORY_HOST_COHERENT

  /** Some memory type in use is suitable for the requirement and properties. */
  predicate HasMemoryType(req: MemoryRequirements, mem: MemoryProperties, properties: Flags)
    requires WellFormedMemoryProperties(mem)
  {
    exists j | 0 <= j < mem.memoryTypeCount :: Suitable(req, mem, properties, j)
  }

  /** Buffer::new_device_local: a host-visible, host-coherent staging buffer
      (a transfer source) is filled with `bytes` and copied into a
      device-local buffer of the same element count (a transfer destination
      and index buffer), which is returned. The staging buffer is dropped on
      every path after its creation: after a failed map, after a failed
      allocation of the device-local buffer, and after the copy. A failed
      copy (`copyAnswer`) drops the device-local buffer and then the staging
      buffer, the reverse of their creation. Handles are
      handed out in sequence from h, so the staging buffer and its memory are
      h and h + 1 and the device-local ones h + 2 and h + 3. */
  method NewDeviceLocal(device: Device, elementNum: nat, elementSize: nat, bytes: seq<Byte>,
                        stagingReq: MemoryRequirements, localReq: MemoryRequirements, mem: MemoryProperties,
                        stagingInit: seq<Byte>, localInit: seq<Byte>, mapAnswer: VkResult<()>,
                        copyAnswer: VkResult<()>)
    returns (r: Result<Buffer>)
    requires elementSize > 0 && elementNum * elementSize <= U64_MAX
    requires |bytes| == elementNum * elementSize
    requires stagingReq.alignment > 0 && localReq.alignment > 0
    requires WellFormedMemoryProperties(mem)
    requires |stagingInit| == elementNum * elementSize && |localInit| == elementNum * elementSize
    modifies device
    ensures var h := old(device.nextHandle);
      && (!HasMemoryType(stagingReq, mem, STAGING_PROPERTIES) ==>
            && r == Err(MemoryTypeNotSupported)
            && device.calls == old(device.calls) + [Created(BufferObject, h)])
      && (HasMemoryType(stagingReq, mem, STAGING_PROPERTIES) && mapAnswer.Failure? ==>
            && r == Err(VkError(mapAnswer.code))
            && device.calls == old(device.calls)
               + [Created(BufferObject, h), Created(DeviceMemory, h + 1),
                  Destroyed(BufferObject, h), Destroyed(DeviceMemory, h + 1)])
      && (HasMemoryType(stagingReq, mem, STAGING_PROPERTIES) && mapAnswer.Success?
          && !HasMemoryType(localReq, mem, MEMORY_DEVICE_LOCAL) ==>
            && r == Err(MemoryTypeNotSupported)
            && device.calls == old(device.calls)
               + [Created(BufferObject, h), Created(DeviceMemory, h + 1), Created(BufferObject, h + 2),
                  Destroyed(BufferObject, h), Destroyed(DeviceMemory, h + 1)])
      && (HasMemoryType(stagingReq, mem, STAGING_PROPERTIES) && mapAnswer.Success?
          && HasMemoryType(localReq, mem, MEMORY_DEVICE_LOCAL) && copyAnswer.Failure? ==>
            && r == Err(VkError(copyAnswer.code))
            && device.calls == old(device.calls)
               + [Created(BufferObject, h), Created(DeviceMemory, h + 1),
                  Created(BufferObject, h + 2), Created(DeviceMemory, h + 3),
                  Destroyed(BufferObject, h + 2), Destroyed(DeviceMemory, h + 3),
                  Destroyed(BufferObject, h), Destroyed(DeviceMemory, h + 1)])
      && (r.Ok? <==> HasMemoryType(stagingReq, mem, STAGING_PROPERTIES) && mapAnswer.Success?
                     && HasMemoryType(localReq, mem, MEMORY_DEVICE_LOCAL) && copyAnswer.Success?)
      && (r.Ok? ==>
            && r.value.buffer == h + 2 && r.value.deviceMemory == h + 3
            && device.calls == old(device.calls)
               + [Created(BufferObject, h), Created(DeviceMemory, h + 1),
                  Created(BufferObject, h + 2), Created(DeviceMemory, h + 3),
                  Destroyed(BufferObject, h), Destroyed(DeviceMemory, h + 1)])
    ensures r.Ok? ==>
      && fresh(r.value) && r.value.Valid()
      && r.value.ElementNum() == elementNum
      && r.value.memory == bytes
      && r.value.usage == BUFFER_USAGE_TRANSFER_DST | BUFFER_USAGE_INDEX_BUFFER
      && r.value.properties == MEMORY_DEVICE_LOCAL
      && !r.value.Mapped()
  {
    var staging := Buffer.New(device, elementNum, elementSize, BUFFER_USAGE_TRANSFER_SRC,
                              STAGING_PROPERTIES, stagingReq, mem, stagingInit);
    if staging.Err? {
      return Err(staging.error);
    }
    var s := staging.value;
    var loaded := s.LoadData(bytes, 0, mapAnswer);
    if loaded.Err? {
      s.Drop();
      return Err(loaded.error);
    }
    assert s.memory == bytes;
    var local := Buffer.New(device, elementNum, elementSize, BUFFER_USAGE_TRANSFER_DST | BUFFER_USAGE_INDEX_BUFFER,
                            MEMORY_DEVICE_LOCAL, localReq, mem, localInit);
    if local.Err? {
      s.Drop();
      return Err(local.error);
    }
    var l := local.value;
    var copied := s.CopyTo(l, copyAnswer);
    if copied.Err? {
      l.Drop();
      s.Drop();
      return Err(copied.error);
    }
    s.Drop();
    ElementNumOfNew(elementNum, elementSize);
    return Ok(l);
  }
}
