/** The logical device seen as an abstract driver: it hands out fresh handles
    and records, in order, every create/destroy/wait call the core makes on it.
    The ordering and "exactly once" properties of the swapchain lifecycle are
    stated over this call log. Creation calls are modelled as succeeding. */
module Driver {
  import opened Vk

  /** Kinds of objects whose lifetime the core manages explicitly. */
  datatype ObjectKind =
    | ImageView
    | Swapchain
    | Framebuffer
    | Semaphore
    | Fence
    | CommandPool
    | CommandBuffer
    | RenderPass
    | DepthImage
    | BufferObject
    | DeviceMemory
    | ImageObject

  /** vk::FramebufferCreateInfo as the core fills it in. */
  datatype FramebufferCreateInfo = FramebufferCreateInfo(
    renderPass: Handle,
    attachments: seq<Handle>,
    width: u32,
    height: u32,
    layers: nat)

  datatype Call =
    | DeviceWaitIdle
    | Created(kind: ObjectKind, handle: Handle)
    | CreatedFence(fence: Handle, signaled: bool)
    | CreatedImageView(view: Handle, image: Handle, format: Format)
    | CreatedFramebuffer(framebuffer: Handle, info: FramebufferCreateInfo)
    | CreatedDepthImage(image: Handle, view: Handle, extent: Extent2D, format: Format)
    | Destroyed(kind: ObjectKind, handle: Handle)

  /** The destroy calls for `hs`, in order. */
  function DestroyAll(kind: ObjectKind, hs: seq<Handle>): (r: seq<Call>)
    ensures |r| == |hs|
    ensures forall i | 0 <= i < |hs| :: r[i] == Destroyed(kind, hs[i])
  {
    seq(|hs|, i requires 0 <= i < |hs| => Destroyed(kind, hs[i]))
  }

  /** The creation calls for `hs`, in order. */
  function CreateAll(kind: ObjectKind, hs: seq<Handle>): (r: seq<Call>)
    ensures |r| == |hs|
    ensures forall i | 0 <= i < |hs| :: r[i] == Created(kind, hs[i])
  {
    seq(|hs|, i requires 0 <= i < |hs| => Created(kind, hs[i]))
  }

  /** A call that creates a depth image, a render pass or a framebuffer. */
  predicate CreatesAttachment(c: Call) {
    c.CreatedDepthImage? || c.CreatedFramebuffer? || (c.Created? && c.kind == RenderPass)
  }

  predicate NoAttachments(cs: seq<Call>) {
    forall i | 0 <= i < |cs| :: !CreatesAttachment(cs[i])
  }

  lemma NoAttachmentsAppend(a: seq<Call>, b: seq<Call>)
    requires NoAttachments(a) && NoAttachments(b)
    ensures NoAttachments(a + b)
  {
    forall i | 0 <= i < |a + b| ensures !CreatesAttachment((a + b)[i]) {
      if i >= |a| { assert (a + b)[i] == b[i - |a|]; }
    }
  }

  predicate Distinct(hs: seq<Handle>) {
    forall i, j | 0 <= i < j < |hs| :: hs[i] != hs[j]
  }

  predicate AllBelow(hs: seq<Handle>, bound: nat) {
    forall i | 0 <= i < |hs| :: hs[i] < bound
  }

  /** Handles issued by a run of fresh allocations: distinct, and all inside
      the window [lo, hi) of handles handed out during the run. */
  predicate FreshRun(hs: seq<Handle>, lo: nat, hi: nat) {
    && (forall i | 0 <= i < |hs| :: lo <= hs[i] < hi)
    && Distinct(hs)
  }

  /** Extending a run by the next handle the driver hands out. */
  lemma FreshRunExtend(hs: seq<Handle>, lo: nat, next: nat)
    requires FreshRun(hs, lo, next) && lo <= next
    ensures FreshRun(hs + [next], lo, next + 1)
  {
    var all := hs + [next];
    forall i, j | 0 <= i < j < |all| ensures all[i] != all[j] {
      assert all[i] == hs[i];
      if j < |hs| { assert all[j] == hs[j]; }
    }
  }

  /** Two consecutive runs form one run. */
  lemma FreshRunConcat(a: seq<Handle>, b: seq<Handle>, lo: nat, mid: nat, hi: nat)
    requires FreshRun(a, lo, mid) && FreshRun(b, mid, hi) && lo <= mid <= hi
    ensures FreshRun(a + b, lo, hi)
  {
    var all := a + b;
    forall i | 0 <= i < |all| ensures lo <= all[i] < hi {
      if i < |a| { assert all[i] == a[i]; } else { assert all[i] == b[i - |a|]; }
    }
    forall i, j | 0 <= i < j < |all| ensures all[i] != all[j] {
      if j < |a| { assert all[i] == a[i] && all[j] == a[j]; }
      else if i < |a| { assert all[i] == a[i] && all[j] == b[j - |a|]; }
      else { assert all[i] == b[i - |a|] && all[j] == b[j - |a|]; }
    }
  }

  /** A run stays a run when the window grows. */
  lemma FreshRunGrow(hs: seq<Handle>, lo: nat, hi: nat, lo': nat, hi': nat)
    requires FreshRun(hs, lo, hi) && lo' <= lo && hi <= hi'
    ensures FreshRun(hs, lo', hi')
  {
  }

  /** A handle taken just before a run stays distinct from the whole run. */
  lemma FreshRunAppendEarlier(hs: seq<Handle>, first: Handle, hi: nat)
    requires FreshRun(hs, first + 1, hi) && first < hi
    ensures FreshRun(hs + [first], first, hi)
  {
    var all := hs + [first];
    forall i, j | 0 <= i < j < |all| ensures all[i] != all[j] {
      assert all[i] == hs[i];
      if j < |hs| { assert all[j] == hs[j]; }
    }
  }

  /** The handles a sequence of calls destroys, in order. */
  function DestroyedHandles(calls: seq<Call>): (hs: seq<Handle>)
    ensures |hs| <= |calls|
  {
    if calls == [] then []
    else
      var rest := DestroyedHandles(calls[1..]);
      if calls[0].Destroyed? then [calls[0].handle] + rest else rest
  }

  lemma {:induction false} DestroyedHandlesAppend(a: seq<Call>, b: seq<Call>)
    ensures DestroyedHandles(a + b) == DestroyedHandles(a) + DestroyedHandles(b)
  {
    if a == [] {
      assert a + b == b;
    } else {
      assert (a + b)[1..] == a[1..] + b;
      DestroyedHandlesAppend(a[1..], b);
    }
  }

  lemma {:induction false} DestroyedHandlesOfDestroyAll(kind: ObjectKind, hs: seq<Handle>)
    ensures DestroyedHandles(DestroyAll(kind, hs)) == hs
  {
    if hs != [] {
      assert DestroyAll(kind, hs) == [Destroyed(kind, hs[0])] + DestroyAll(kind, hs[1..]);
      DestroyedHandlesAppend([Destroyed(kind, hs[0])], DestroyAll(kind, hs[1..]));
      DestroyedHandlesOfDestroyAll(kind, hs[1..]);
    }
  }

  /** How many times `h` occurs in `hs`. */
  function Occurrences<T(==)>(hs: seq<T>, h: T): (n: nat)
    ensures n <= |hs|
    ensures n == 0 <==> h !in hs
  {
    if hs == [] then 0
    else (if hs[0] == h then 1 else 0) + Occurrences(hs[1..], h)
  }

  /** Occurrences add up over a concatenation. */
  lemma {:induction false} OccurrencesAppend<T>(a: seq<T>, b: seq<T>, h: T)
    ensures Occurrences(a + b, h) == Occurrences(a, h) + Occurrences(b, h)
  {
    if a == [] {
      assert a + b == b;
    } else {
      assert (a + b)[1..] == a[1..] + b;
      OccurrencesAppend(a[1..], b, h);
    }
  }

  /** In a sequence without repetitions every member occurs exactly once. */
  lemma {:induction false} DistinctOccursOnce(hs: seq<Handle>, h: Handle)
    requires Distinct(hs) && h in hs
    ensures Occurrences(hs, h) == 1
  {
    if hs[0] == h {
      assert h !in hs[1..] by {
        forall k | 0 <= k < |hs[1..]| ensures hs[1..][k] != h {
          assert hs[1..][k] == hs[k + 1];
        }
      }
    } else {
      DistinctOccursOnce(hs[1..], h);
    }
  }

  class Device {
    const instance: Handle
    const physicalDevice: Handle
    /** Device::queue_family_indices(): the distinct queue family indices. */
    const queueFamilyIndices: seq<u32>
    /** The next handle the driver will hand out; handles below it are taken. */
    var nextHandle: nat
    /** Every call made on the device, oldest first. */
    var calls: seq<Call>

    constructor(instance: Handle, physicalDevice: Handle, queueFamilyIndices: seq<u32>)
      ensures this.instance == instance && this.physicalDevice == physicalDevice
      ensures this.queueFamilyIndices == queueFamilyIndices
      ensures nextHandle == 1 && calls == []
    {
      this.instance := instance;
      this.physicalDevice := physicalDevice;
      this.queueFamilyIndices := queueFamilyIndices;
      nextHandle := 1;
      calls := [];
    }

    method WaitIdle()
      modifies this
      ensures calls == old(calls) + [DeviceWaitIdle]
      ensures nextHandle == old(nextHandle)
    {
      calls := calls + [DeviceWaitIdle];
    }

    method Create(kind: ObjectKind) returns (h: Handle)
      modifies this
      ensures h == old(nextHandle) && nextHandle == h + 1
      ensures calls == old(calls) + [Created(kind, h)]
    {
      h := nextHandle;
      nextHandle := nextHandle + 1;
      calls := calls + [Created(kind, h)];
    }

    method CreateFence(signaled: bool) returns (h: Handle)
      modifies this
      ensures h == old(nextHandle) && nextHandle == h + 1
      ensures calls == old(calls) + [CreatedFence(h, signaled)]
    {
      h := nextHandle;
      nextHandle := nextHandle + 1;
      calls := calls + [CreatedFence(h, signaled)];
    }

    method CreateImageView(image: Handle, format: Format) returns (h: Handle)
      modifies this
      ensures h == old(nextHandle) && nextHandle == h + 1
      ensures calls == old(calls) + [CreatedImageView(h, image, format)]
    {
      h := nextHandle;
      nextHandle := nextHandle + 1;
      calls := calls + [CreatedImageView(h, image, format)];
    }

    method CreateFramebuffer(info: FramebufferCreateInfo) returns (h: Handle)
      modifies this
      ensures h == old(nextHandle) && nextHandle == h + 1
      ensures calls == old(calls) + [CreatedFramebuffer(h, info)]
    {
      h := nextHandle;
      nextHandle := nextHandle + 1;
      calls := calls + [CreatedFramebuffer(h, info)];
    }

    /** DepthStencilImageAndView::new: an image and its view at `extent`. */
    method CreateDepthImage(extent: Extent2D, format: Format) returns (image: Handle, view: Handle)
      modifies this
      ensures image == old(nextHandle) && view == image + 1 && nextHandle == image + 2
      ensures calls == old(calls) + [CreatedDepthImage(image, view, extent, format)]
    {
      image := nextHandle;
      view := nextHandle + 1;
      nextHandle := nextHandle + 2;
      calls := calls + [CreatedDepthImage(image, view, extent, format)];
    }

    method Destroy(kind: ObjectKind, h: Handle)
      modifies this
      ensures calls == old(calls) + [Destroyed(kind, h)]
      ensures nextHandle == old(nextHandle)
    {
      calls := calls + [Destroyed(kind, h)];
    }

    /** Destroy every handle of `hs`, in order (an `iter().for_each(destroy)`). */
    method DestroyEach(kind: ObjectKind, hs: seq<Handle>)
      modifies this
      ensures calls == old(calls) + DestroyAll(kind, hs)
      ensures nextHandle == old(nextHandle)
    {
      var i := 0;
      while i < |hs|
        invariant 0 <= i <= |hs|
        invariant calls == old(calls) + DestroyAll(kind, hs[..i])
        invariant nextHandle == old(nextHandle)
      {
        Destroy(kind, hs[i]);
        assert DestroyAll(kind, hs[..i + 1]) == DestroyAll(kind, hs[..i]) + [Destroyed(kind, hs[i])];
        i := i + 1;
      }
      assert hs[..i] == hs;
    }
  }
}
