/** PhysicalDeviceCollection: the physical devices an instance enumerates,
    bucketed by device type (discrete, integrated, cpu) in enumeration order,
    and pick_first, which prefers them in that order. Both instance
    implementations bucket devices with the same loop. */
module PhysicalDevices {
  import opened Vk

  /** vk::PhysicalDeviceType */
  type DeviceType = int
  const DEVICE_TYPE_OTHER: DeviceType := 0
  const DEVICE_TYPE_INTEGRATED_GPU: DeviceType := 1
  const DEVICE_TYPE_DISCRETE_GPU: DeviceType := 2
  const DEVICE_TYPE_VIRTUAL_GPU: DeviceType := 3
  const DEVICE_TYPE_CPU: DeviceType := 4

  /** An enumerated physical device with the type its properties report. */
  datatype DeviceReport = DeviceReport(device: Handle, deviceType: DeviceType)

  datatype PhysicalDeviceCollection = PhysicalDeviceCollection(
    discrete: seq<Handle>, integrated: seq<Handle>, cpu: seq<Handle>)

  /** The devices of type `t`, in enumeration order. */
  function OfType(devices: seq<DeviceReport>, t: DeviceType): (hs: seq<Handle>)
    ensures |hs| <= |devices|
    ensures forall h :: h in hs <==> exists i | 0 <= i < |devices| :: devices[i] == DeviceReport(h, t)
  {
    if devices == [] then []
    else
      var rest := OfType(devices[1..], t);
      assert forall i | 1 <= i < |devices| :: devices[i] == devices[1..][i - 1];
      (if devices[0].deviceType == t then [devices[0].device] else []) + rest
  }

  lemma {:induction false} OfTypeAppend(devices: seq<DeviceReport>, d: DeviceReport, t: DeviceType)
    ensures OfType(devices + [d], t) == OfType(devices, t) + (if d.deviceType == t then [d.device] else [])
  {
    if devices == [] {
      assert [d][1..] == [];
    } else {
      assert (devices + [d])[1..] == devices[1..] + [d];
      OfTypeAppend(devices[1..], d, t);
    }
  }

  /** The first enumerated device of type `t`. */
  function FirstOfType(devices: seq<DeviceReport>, t: DeviceType): (r: Option<Handle>)
    ensures r.None? <==> forall i | 0 <= i < |devices| :: devices[i].deviceType != t
    ensures r.Some? ==> exists i | 0 <= i < |devices| ::
      && devices[i] == DeviceReport(r.value, t)
      && forall j | 0 <= j < i :: devices[j].deviceType != t
  {
    if devices == [] then None
    else if devices[0].deviceType == t then Some(devices[0].device)
    else
      var r := FirstOfType(devices[1..], t);
      assert forall i | 1 <= i < |devices| :: devices[i] == devices[1..][i - 1];
      r
  }

  /** A bucket starts with the first enumerated device of its type. */
  lemma {:induction false} OfTypeStartsWithFirst(devices: seq<DeviceReport>, t: DeviceType)
    ensures OfType(devices, t) == [] <==> FirstOfType(devices, t).None?
    ensures OfType(devices, t) != [] ==> OfType(devices, t)[0] == FirstOfType(devices, t).value
  {
    if devices != [] && devices[0].deviceType != t {
      OfTypeStartsWithFirst(devices[1..], t);
    }
  }

  /** The buckets as a specification: each type's devices in enumeration order. */
  function Bucketed(devices: seq<DeviceReport>): PhysicalDeviceCollection {
    PhysicalDeviceCollection(OfType(devices, DEVICE_TYPE_DISCRETE_GPU),
                             OfType(devices, DEVICE_TYPE_INTEGRATED_GPU),
                             OfType(devices, DEVICE_TYPE_CPU))
  }

  /** The loop of Instance::new / InstanceBuilder::build that pushes each
      device into the bucket of its type; any other type is dropped. */
  method CollectDevices(devices: seq<DeviceReport>) returns (c: PhysicalDeviceCollection)
    ensures c == Bucketed(devices)
  {
    c := PhysicalDeviceCollection([], [], []);
    var i := 0;
    while i < |devices|
      invariant 0 <= i <= |devices|
      invariant c.discrete == OfType(devices[..i], DEVICE_TYPE_DISCRETE_GPU)
      invariant c.integrated == OfType(devices[..i], DEVICE_TYPE_INTEGRATED_GPU)
      invariant c.cpu == OfType(devices[..i], DEVICE_TYPE_CPU)
    {
      var d := devices[i];
      assert devices[..i + 1] == devices[..i] + [d];
      OfTypeAppend(devices[..i], d, DEVICE_TYPE_DISCRETE_GPU);
      OfTypeAppend(devices[..i], d, DEVICE_TYPE_INTEGRATED_GPU);
      OfTypeAppend(devices[..i], d, DEVICE_TYPE_CPU);
      if d.deviceType == DEVICE_TYPE_DISCRETE_GPU {
        c := c.(discrete := c.discrete + [d.device]);
      } else if d.deviceType == DEVICE_TYPE_INTEGRATED_GPU {
        c := c.(integrated := c.integrated + [d.device]);
      } else if d.deviceType == DEVICE_TYPE_CPU {
        c := c.(cpu := c.cpu + [d.device]);
      }
      i := i + 1;
    }
    assert devices[..i] == devices;
  }

  /** is_empty */
  predicate IsEmpty(c: PhysicalDeviceCollection) {
    c.discrete == [] && c.integrated == [] && c.cpu == []
  }

  /** chained_iter: discrete, then integrated, then cpu devices. It yields
      nothing exactly when the collection is empty. */
  function Chained(c: PhysicalDeviceCollection): (r: seq<Handle>)
    ensures |r| == |c.discrete| + |c.integrated| + |c.cpu|
    ensures r == [] <==> IsEmpty(c)
    ensures forall h :: h in r <==> h in c.discrete || h in c.integrated || h in c.cpu
  {
    c.discrete + c.integrated + c.cpu
  }

  /** pick_first: the first device of the chained iteration. */
  function PickFirst(c: PhysicalDeviceCollection): (r: Option<Handle>)
    ensures r.None? <==> IsEmpty(c)
    ensures r.Some? ==> r.value in Chained(c)
  {
    var all := Chained(c);
    if all == [] then None else Some(all[0])
  }

  /** Over the bucketed enumeration, pick_first chooses the first discrete
      GPU, else the first integrated GPU, else the first CPU device; there is
      no choice exactly when no device has one of those three types. */
  lemma PickFirstPrefersDiscrete(devices: seq<DeviceReport>)
    ensures var c := Bucketed(devices);
      var d := FirstOfType(devices, DEVICE_TYPE_DISCRETE_GPU);
      var g := FirstOfType(devices, DEVICE_TYPE_INTEGRATED_GPU);
      var u := FirstOfType(devices, DEVICE_TYPE_CPU);
      PickFirst(c) == if d.Some? then d else if g.Some? then g else u
    ensures IsEmpty(Bucketed(devices)) <==> forall i | 0 <= i < |devices| ::
                   devices[i].deviceType !in {DEVICE_TYPE_DISCRETE_GPU, DEVICE_TYPE_INTEGRATED_GPU, DEVICE_TYPE_CPU}
  {
    OfTypeStartsWithFirst(devices, DEVICE_TYPE_DISCRETE_GPU);
    OfTypeStartsWithFirst(devices, DEVICE_TYPE_INTEGRATED_GPU);
    OfTypeStartsWithFirst(devices, DEVICE_TYPE_CPU);
  }
}
