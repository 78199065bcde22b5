/**
 * DeviceSelector (src/RHI/Intialization/DeviceSelector.hpp): every physical
 * device is scored from its extension list, type and 2D image limit, those
 * scoring at least 0 are kept, and a device with the highest score is chosen.
 */
module DeviceSelection {
  import opened Common
  import opened Vk

  /** What the selector reads of a physical device. */
  datatype PhysicalDevice = PhysicalDevice(handle: Handle, deviceType: int, maxImageDimension2D: u32, extensions: seq<string>)

  datatype DeviceError = NoValidPhysicalDevice

  /** The inner search loop: strcmp of one name against each available extension. */
  function ContainsName(available: seq<string>, name: string): (found: bool)
    ensures found <==> name in available
  {
    if available == [] then false
    else available[0] == name || ContainsName(available[1..], name)
  }

  /** The outer loop: every required name must be found, or the device scores -1. */
  function AllFound(required: seq<string>, available: seq<string>): (ok: bool)
    ensures ok <==> forall k :: 0 <= k < |required| ==> required[k] in available
  {
    if required == [] then true
    else ContainsName(available, required[0]) && AllFound(required[1..], available)
  }

  /** The type preference: 1000 for a discrete GPU, 100 for an integrated one, nothing otherwise. */
  function TypeBonus(deviceType: int): (b: int)
    ensures b == 0 || b == 100 || b == 1000
    ensures b == 1000 <==> deviceType == DEVICE_TYPE_DISCRETE_GPU
  {
    if deviceType == DEVICE_TYPE_DISCRETE_GPU then 1000
    else if deviceType == DEVICE_TYPE_INTEGRATED_GPU then 100
    else 0
  }

  /**
   * evaluateDevice: -1 when a required extension is missing.  Otherwise the
   * uint32 limit is added to the int32 score in unsigned arithmetic and
   * stored back into the int32.
   */
  function EvaluateDevice(dev: PhysicalDevice, required: seq<string>): (score: int)
    ensures -0x8000_0000 <= score < 0x8000_0000
  {
    if !AllFound(required, dev.extensions) then -1
    else AsInt32(Wrap32(TypeBonus(dev.deviceType) + dev.maxImageDimension2D))
  }

  /**
   * The score is -1 exactly when a required extension is missing, as long
   * as the limit is far enough below 2^31 not to wrap; then it is the type
   * bonus plus the limit.
   */
  lemma EvaluateDeviceMeaning(dev: PhysicalDevice, required: seq<string>)
    requires dev.maxImageDimension2D < 0x8000_0000 - 1000
    ensures EvaluateDevice(dev, required) == -1 <==> exists k :: 0 <= k < |required| && required[k] !in dev.extensions
    ensures EvaluateDevice(dev, required) != -1 ==>
      EvaluateDevice(dev, required) == TypeBonus(dev.deviceType) + dev.maxImageDimension2D >= 0
  {
  }

  /** A limit of 2^31 or more wraps the score of a fully capable device below zero. */
  lemma HugeLimitWrapsNegative(dev: PhysicalDevice, required: seq<string>)
    requires forall k :: 0 <= k < |required| ==> required[k] in dev.extensions
    requires 0x8000_0000 <= dev.maxImageDimension2D < U32_MODULUS - 1000
    ensures EvaluateDevice(dev, required) < 0
  {
    assert AllFound(required, dev.extensions);
    var sum := TypeBonus(dev.deviceType) + dev.maxImageDimension2D;
    assert Wrap32(sum) == sum;
  }

  /** The pick list the first loop builds: the devices scoring at least 0, in enumeration order. */
  function PickList(devices: seq<PhysicalDevice>, required: seq<string>): seq<(int, PhysicalDevice)>
  {
    if devices == [] then []
    else
      var last := devices[|devices| - 1];
      var score := EvaluateDevice(last, required);
      PickList(devices[..|devices| - 1], required) + (if score >= 0 then [(score, last)] else [])
  }

  /** The pick list holds exactly the devices scoring at least 0, each with its score. */
  lemma PickListExact(devices: seq<PhysicalDevice>, required: seq<string>)
    ensures forall p :: p in PickList(devices, required) ==>
      p.1 in devices && p.0 == EvaluateDevice(p.1, required) >= 0
    ensures forall i :: 0 <= i < |devices| && EvaluateDevice(devices[i], required) >= 0 ==>
      (EvaluateDevice(devices[i], required), devices[i]) in PickList(devices, required)
  {
    PickListSound(devices, required);
    PickListComplete(devices, required);
  }

  lemma {:induction false} PickListSound(devices: seq<PhysicalDevice>, required: seq<string>)
    ensures forall p :: p in PickList(devices, required) ==>
      p.1 in devices && p.0 == EvaluateDevice(p.1, required) >= 0
  {
    if devices != [] {
      var init := devices[..|devices| - 1];
      PickListSound(init, required);
      forall p | p in PickList(init, required)
        ensures p.1 in devices
      {
        var i :| 0 <= i < |init| && init[i] == p.1;
        assert devices[i] == p.1;
      }
    }
  }

  lemma {:induction false} PickListComplete(devices: seq<PhysicalDevice>, required: seq<string>)
    ensures forall i :: 0 <= i < |devices| && EvaluateDevice(devices[i], required) >= 0 ==>
      (EvaluateDevice(devices[i], required), devices[i]) in PickList(devices, required)
  {
    if devices != [] {
      var init := devices[..|devices| - 1];
      PickListComplete(init, required);
      forall i | 0 <= i < |init|
        ensures init[i] == devices[i]
      {
      }
    }
  }

  /** A device none of the enumerated devices outscores. */
  predicate IsBestDevice(devices: seq<PhysicalDevice>, required: seq<string>, d: PhysicalDevice)
  {
    && d in devices && EvaluateDevice(d, required) >= 0
    && forall e :: e in devices ==> EvaluateDevice(e, required) <= EvaluateDevice(d, required)
  }

  /**
   * selectPhysicalDevice over the enumerated devices: throws when no device
   * scores at least 0, and otherwise returns a device with the highest
   * score (which one among equals the unstable sort leaves open).
   */
  method SelectPhysicalDevice(devices: seq<PhysicalDevice>, required: seq<string>)
    returns (r: Result<PhysicalDevice, DeviceError>)
    ensures r.Err? <==> forall d :: d in devices ==> EvaluateDevice(d, required) < 0
    ensures r.Ok? ==> IsBestDevice(devices, required, r.value)
  {
    var picks := CollectPicks(devices, required);
    PickListExact(devices, required);
    if |picks| == 0 {
      forall d | d in devices ensures EvaluateDevice(d, required) < 0 {
        var i :| 0 <= i < |devices| && devices[i] == d;
        assert (EvaluateDevice(d, required), d) !in picks;
      }
      return Err(NoValidPhysicalDevice);
    }
    var best := HighestPick(picks);
    assert picks[best] in picks;
    r := Ok(picks[best].1);
    forall e | e in devices
      ensures EvaluateDevice(e, required) <= EvaluateDevice(r.value, required)
    {
      if EvaluateDevice(e, required) >= 0 {
        var i :| 0 <= i < |devices| && devices[i] == e;
        var k :| 0 <= k < |picks| && picks[k] == (EvaluateDevice(e, required), e);
      }
    }
  }

  /** The first loop: every device scoring at least 0 is pushed onto the pick list with its score. */
  method CollectPicks(devices: seq<PhysicalDevice>, required: seq<string>) returns (picks: seq<(int, PhysicalDevice)>)
    ensures picks == PickList(devices, required)
  {
    picks := [];
    var i := 0;
    while i < |devices|
      invariant 0 <= i <= |devices|
      invariant picks == PickList(devices[..i], required)
    {
      assert devices[..i + 1][..i] == devices[..i];
      var score := EvaluateDevice(devices[i], required);
      if score >= 0 {
        picks := picks + [(score, devices[i])];
      }
      i := i + 1;
    }
    assert devices[..i] == devices;
  }

  /** The front of the pick list once sorted by descending score: a pick of the highest score. */
  method HighestPick(picks: seq<(int, PhysicalDevice)>) returns (best: nat)
    requires |picks| > 0
    ensures best < |picks| && forall k :: 0 <= k < |picks| ==> picks[k].0 <= picks[best].0
  {
    best := 0;
    var j := 1;
    while j < |picks|
      invariant 1 <= j <= |picks| && 0 <= best < j
      invariant forall k :: 0 <= k < j ==> picks[k].0 <= picks[best].0
    {
      if picks[j].0 > picks[best].0 {
        best := j;
      }
      j := j + 1;
    }
  }

  /** Adding a missing extension's device to the list cannot change which scores are kept: it scores -1. */
  lemma MissingExtensionNeverChosen(devices: seq<PhysicalDevice>, required: seq<string>, d: PhysicalDevice, name: string)
    requires name in required && name !in d.extensions
    ensures !IsBestDevice(devices, required, d)
  {
    assert !AllFound(required, d.extensions);
  }

  /**
   * With realistic limits a discrete GPU beats an integrated one whose 2D
   * limit is within 900 of its own, both having the required extensions.
   */
  lemma DiscreteBeatsNearIntegrated(discrete: PhysicalDevice, integrated: PhysicalDevice, required: seq<string>)
    requires discrete.deviceType == DEVICE_TYPE_DISCRETE_GPU && integrated.deviceType == DEVICE_TYPE_INTEGRATED_GPU
    requires forall k :: 0 <= k < |required| ==> required[k] in discrete.extensions && required[k] in integrated.extensions
    requires discrete.maxImageDimension2D < 0x8000_0000 - 1000 && integrated.maxImageDimension2D < 0x8000_0000 - 1000
    requires integrated.maxImageDimension2D < discrete.maxImageDimension2D + 900
    ensures EvaluateDevice(integrated, required) < EvaluateDevice(discrete, required)
  {
  }
}
