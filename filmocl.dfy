/**
 * The OpenCL part of the Film: resetting its OpenCL fields, creating the
 * context with the device the film's image pipeline runs on, and deleting it.
 */
module FilmOcl {

  import opened Wrappers

  /** LuxRays device types; the OpenCL ones are those DEVICE_TYPE_OPENCL_ALL covers. */
  datatype DeviceType = NativeThread | OpenCLDefault | OpenCLCpu | OpenCLGpu | OpenCLUnknown | Cuda

  datatype DeviceDescription = DeviceDescription(name: string, deviceType: DeviceType, isOpenCL11: bool)

  predicate IsOpenCL(t: DeviceType)
  {
    t == OpenCLDefault || t == OpenCLCpu || t == OpenCLGpu || t == OpenCLUnknown
  }

  /** `DeviceDescription::Filter(DEVICE_TYPE_OPENCL_ALL, descs)`: the OpenCL devices, in enumeration order. */
  function FilterOpenCL(descs: seq<DeviceDescription>): (r: seq<DeviceDescription>)
    ensures |r| <= |descs|
    ensures forall i :: 0 <= i < |r| ==> IsOpenCL(r[i].deviceType) && r[i] in descs
    ensures forall d :: d in descs && IsOpenCL(d.deviceType) ==> d in r
  {
    if descs == [] then []
    else (if IsOpenCL(descs[0].deviceType) then [descs[0]] else []) + FilterOpenCL(descs[1..])
  }

  /** Filtering keeps order and multiplicity: it filters each part of a list separately. */
  lemma {:induction false} FilterOpenCLAppend(a: seq<DeviceDescription>, b: seq<DeviceDescription>)
    ensures FilterOpenCL(a + b) == FilterOpenCL(a) + FilterOpenCL(b)
    decreases |a|
  {
    if a == [] {
      assert a + b == b;
    } else {
      assert (a + b)[0] == a[0] && (a + b)[1..] == a[1..] + b;
      FilterOpenCLAppend(a[1..], b);
    }
  }

  /** The index of the first GPU at or after `from`, if any. */
  function FirstGpuFrom(descs: seq<DeviceDescription>, from: nat): (r: Option<nat>)
    requires from <= |descs|
    decreases |descs| - from
  {
    if from == |descs| then None
    else if descs[from].deviceType == OpenCLGpu then Some(from)
    else FirstGpuFrom(descs, from + 1)
  }

  lemma {:induction false} FirstGpuFromIsFirst(descs: seq<DeviceDescription>, from: nat)
    requires from <= |descs|
    ensures var r := FirstGpuFrom(descs, from);
            (r.Some? ==> from <= r.value < |descs| && descs[r.value].deviceType == OpenCLGpu
                         && forall j :: from <= j < r.value ==> descs[j].deviceType != OpenCLGpu)
            && (r.None? ==> forall j :: from <= j < |descs| ==> descs[j].deviceType != OpenCLGpu)
    decreases |descs| - from
  {
    if from < |descs| && descs[from].deviceType != OpenCLGpu {
      FirstGpuFromIsFirst(descs, from + 1);
    }
  }

  /** The first GPU at index k: no GPU before it. */
  lemma FirstGpuAt(descs: seq<DeviceDescription>, k: nat)
    requires k < |descs| && descs[k].deviceType == OpenCLGpu
    requires forall j :: 0 <= j < k ==> descs[j].deviceType != OpenCLGpu
    ensures FirstGpuFrom(descs, 0) == Some(k)
  {
    FirstGpuFromIsFirst(descs, 0);
  }

  /**
   * Searching the filtered list finds the first GPU of the whole enumeration,
   * since every GPU is an OpenCL device and filtering keeps the order.
   */
  lemma FilterKeepsFirstGpu(descs: seq<DeviceDescription>)
    ensures FirstGpuFrom(FilterOpenCL(descs), 0).Some? <==> FirstGpuFrom(descs, 0).Some?
    ensures var k, g := FirstGpuFrom(descs, 0), FirstGpuFrom(FilterOpenCL(descs), 0);
            k.Some? ==> g.Some? && k.value < |descs| && g.value < |FilterOpenCL(descs)|
                        && FilterOpenCL(descs)[g.value] == descs[k.value]
  {
    FirstGpuFromIsFirst(descs, 0);
    match FirstGpuFrom(descs, 0)
    case None =>
      FilterWithoutGpu(descs);
    case Some(k) =>
      FilterKeepsGpuAt(descs, k);
  }

  lemma FilterWithoutGpu(descs: seq<DeviceDescription>)
    requires forall j :: 0 <= j < |descs| ==> descs[j].deviceType != OpenCLGpu
    ensures FirstGpuFrom(FilterOpenCL(descs), 0).None?
  {
    var r := FilterOpenCL(descs);
    forall i | 0 <= i < |r|
      ensures r[i].deviceType != OpenCLGpu
    {
      assert r[i] in descs;
    }
    FirstGpuFromIsFirst(r, 0);
  }

  /** The first GPU, at k, lands in the filtered list after the OpenCL devices before it. */
  lemma FilterKeepsGpuAt(descs: seq<DeviceDescription>, k: nat)
    requires k < |descs| && descs[k].deviceType == OpenCLGpu
    requires forall j :: 0 <= j < k ==> descs[j].deviceType != OpenCLGpu
    ensures var g := FirstGpuFrom(FilterOpenCL(descs), 0);
            g.Some? && g.value < |FilterOpenCL(descs)| && FilterOpenCL(descs)[g.value] == descs[k]
  {
    var before, after := descs[..k], descs[k + 1..];
    assert descs == before + [descs[k]] + after;
    FilterOpenCLAppend(before + [descs[k]], after);
    FilterOpenCLAppend(before, [descs[k]]);
    assert FilterOpenCL([descs[k]]) == [descs[k]];
    var front := FilterOpenCL(before);
    var r := FilterOpenCL(descs);
    assert r == front + [descs[k]] + FilterOpenCL(after);
    forall j | 0 <= j < |front|
      ensures r[j].deviceType != OpenCLGpu
    {
      assert front[j] in before;
      assert r[j] == front[j];
    }
    FirstGpuAt(r, |front|);
  }

  /**
   * The device selection rule: an explicit in-range index wins, whatever the
   * device's type; otherwise the first GPU in enumeration order; otherwise none.
   */
  function SelectDevice(requested: int, descs: seq<DeviceDescription>): Option<nat>
  {
    if 0 <= requested < |descs| then Some(requested)
    else if |descs| > 0 then FirstGpuFrom(descs, 0)
    else None
  }

  lemma SelectExplicitIndex(requested: int, descs: seq<DeviceDescription>)
    requires 0 <= requested < |descs|
    ensures SelectDevice(requested, descs) == Some(requested)
  {
  }

  /** Without an in-range index, the selected device is the first GPU, and nothing is selected when there is none. */
  lemma SelectFirstGpu(requested: int, descs: seq<DeviceDescription>)
    requires !(0 <= requested < |descs|)
    ensures var r := SelectDevice(requested, descs);
            (r.Some? ==> r.value < |descs| && descs[r.value].deviceType == OpenCLGpu
                         && forall j :: 0 <= j < r.value ==> descs[j].deviceType != OpenCLGpu)
            && (r.None? <==> forall j :: 0 <= j < |descs| ==> descs[j].deviceType != OpenCLGpu)
  {
    FirstGpuFromIsFirst(descs, 0);
  }

  lemma SelectNoDevices(requested: int)
    ensures SelectDevice(requested, []) == None
  {
  }

  /** Whatever is selected, it is a position in the device list. */
  lemma SelectInRange(requested: int, descs: seq<DeviceDescription>)
    ensures SelectDevice(requested, descs).Some? ==> SelectDevice(requested, descs).value < |descs|
  {
    FirstGpuFromIsFirst(descs, 0);
  }

  /** The loop of CreateOCLContext that picks the device, with its `break` on the first GPU. */
  method SelectDeviceIndex(oclDeviceIndex: int, descs: seq<DeviceDescription>) returns (selected: Option<nat>)
    ensures selected == SelectDevice(oclDeviceIndex, descs)
    ensures selected.Some? ==> selected.value < |descs|
  {
    selected := None;
    if 0 <= oclDeviceIndex < |descs| {
      // a specific device was asked for
      selected := Some(oclDeviceIndex);
    } else if |descs| > 0 {
      // look for a GPU to use
      var i := 0;
      while i < |descs|
        invariant 0 <= i <= |descs|
        invariant selected.None?
        invariant FirstGpuFrom(descs, 0) == FirstGpuFrom(descs, i)
      {
        if descs[i].deviceType == OpenCLGpu {
          selected := Some(i);
          break;
        }
        i := i + 1;
      }
    }
  }

  /** A LuxRays intersection device allocated in a context. */
  class IntersectionDevice {
    const desc: DeviceDescription
    var dataParallelSupport: bool

    constructor (desc: DeviceDescription)
      ensures this.desc == desc && dataParallelSupport
    {
      this.desc := desc;
      dataParallelSupport := true;
    }
  }

  /** A LuxRays context; its devices are those AddIntersectionDevices allocated. */
  class Context {
    const platformIndex: int
    const available: seq<DeviceDescription>
    var devices: seq<IntersectionDevice>
    var live: bool

    constructor (platformIndex: int, available: seq<DeviceDescription>)
      ensures this.platformIndex == platformIndex && this.available == available && devices == [] && live
    {
      this.platformIndex := platformIndex;
      this.available := available;
      devices := [];
      live := true;
    }

    method AddIntersectionDevice(desc: DeviceDescription) returns (dev: IntersectionDevice)
      modifies this
      ensures fresh(dev) && dev.desc == desc && dev.dataParallelSupport
      ensures devices == old(devices) + [dev] && live == old(live)
    {
      dev := new IntersectionDevice(desc);
      devices := devices + [dev];
    }
  }

  class Film {
    var oclPlatformIndex: int
    var oclDeviceIndex: int
    var ctx: Context?
    var oclIntersectionDevice: IntersectionDevice?
    var selectedDeviceDesc: Option<DeviceDescription>
    /** Whether the ocl_RGB_TONEMAPPED buffer is allocated. */
    var hasRgbTonemappedBuffer: bool

    method SetUpOCL()
      modifies this
      ensures oclPlatformIndex == -1 && oclDeviceIndex == -1
      ensures ctx == null && oclIntersectionDevice == null && !hasRgbTonemappedBuffer
      ensures selectedDeviceDesc == old(selectedDeviceDesc)
    {
      oclPlatformIndex := -1;
      oclDeviceIndex := -1;
      ctx := null;
      oclIntersectionDevice := null;
      hasRgbTonemappedBuffer := false;
    }

    /**
     * `available` is what the new context enumerates.  The result says whether
     * the "OpenCL 1.1 or better is required" warning is logged; it never aborts.
     */
    method CreateOCLContext(available: seq<DeviceDescription>) returns (warning: bool)
      modifies this
      ensures fresh(ctx) && ctx.live && ctx.platformIndex == oclPlatformIndex && ctx.available == available
      ensures oclPlatformIndex == old(oclPlatformIndex) && oclDeviceIndex == old(oclDeviceIndex)
      ensures hasRgbTonemappedBuffer == old(hasRgbTonemappedBuffer)
      ensures var descs := FilterOpenCL(available);
              var sel := SelectDevice(oclDeviceIndex, descs);
              SelectDevice(oclDeviceIndex, descs).Some? ==> sel.value < |descs| && selectedDeviceDesc == Some(descs[sel.value])
      ensures SelectDevice(oclDeviceIndex, FilterOpenCL(available)).None? ==> selectedDeviceDesc == None
      // exactly one device is allocated for a selected description, none otherwise
      ensures selectedDeviceDesc.Some? ==>
                ctx.devices == [oclIntersectionDevice] && fresh(oclIntersectionDevice)
                && oclIntersectionDevice.desc == selectedDeviceDesc.value && !oclIntersectionDevice.dataParallelSupport
      ensures selectedDeviceDesc.None? ==> ctx.devices == [] && oclIntersectionDevice == old(oclIntersectionDevice)
      ensures warning <==> selectedDeviceDesc.Some? && !selectedDeviceDesc.value.isOpenCL11
    {
      ctx := new Context(oclPlatformIndex, available);

      // Select the OpenCL device
      var descs := FilterOpenCL(available);
      var index := SelectDeviceIndex(oclDeviceIndex, descs);
      selectedDeviceDesc := if index.Some? then Some(descs[index.value]) else None;

      warning := false;
      if selectedDeviceDesc.Some? {
        // allocate the device
        var dev := ctx.AddIntersectionDevice(selectedDeviceDesc.value);
        oclIntersectionDevice := dev;
        // no hybrid rendering on the film's device
        dev.dataParallelSupport := false;
        // some drivers report OpenCL 1.0 although they are 1.1: only warn
        warning := !dev.desc.isOpenCL11;
      }
    }

    method DeleteOCLContext()
      modifies ctx
      ensures ctx != null ==> !ctx.live
    {
      if ctx != null {
        ctx.live := false;
      }
    }
  }
}
