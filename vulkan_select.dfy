/**
 The selection and validation rules of the Vulkan bring-up, stated over the
 lists the driver reports: layer names, queue-family flag words and device
 extension names (vulkanTest/Core/Graphics.cpp).
 */
module VulkanSelect {
  import opened Common

  /** A layer or extension name; the driver reports them as NUL-terminated strings compared with strcmp. */
  type Name = string

  predicate Occurs(name: Name, available: seq<Name>)
  {
    exists j :: 0 <= j < |available| && available[j] == name
  }

  predicate AllOccur(requested: seq<Name>, available: seq<Name>)
  {
    forall i :: 0 <= i < |requested| ==> Occurs(requested[i], available)
  }

  // ---------------------------------------------------------------------
  // Layer check (Impl::check_layers)
  // ---------------------------------------------------------------------

  /**
   The position of the first requested name that the available list lacks,
   or None when every requested name is available.
   */
  function FirstMissing(requested: seq<Name>, available: seq<Name>): (r: Option<nat>)
    ensures r.None? <==> AllOccur(requested, available)
    ensures r.Some? ==>
      && r.value < |requested|
      && !Occurs(requested[r.value], available)
      && forall i :: 0 <= i < r.value ==> Occurs(requested[i], available)
    decreases |requested|
  {
    if |requested| == 0 then None
    else if !Occurs(requested[0], available) then Some(0)
    else
      match FirstMissing(requested[1..], available)
      case None => None
      case Some(k) => Some(k + 1)
  }

  /**
   The layer check. `checkNames` and `layers` stand for the (count, pointer)
   pairs of the source. For each requested name in order the available layers
   are scanned until an equal name is met; the first requested name without a
   match is logged as an error and the check answers false at once.
   `logged` is that error message's argument and `examined` is how many
   requested names were looked at before the answer.
   */
  method CheckLayers(checkNames: seq<Name>, layers: seq<Name>)
    returns (ok: bool, logged: Option<Name>, examined: nat)
    ensures ok <==> AllOccur(checkNames, layers)
    ensures |checkNames| == 0 ==> ok && logged == None
    ensures ok ==> logged == None && examined == |checkNames|
    ensures !ok ==>
      && examined <= |checkNames|
      && FirstMissing(checkNames, layers) == Some(examined - 1)
      && logged == Some(checkNames[examined - 1])
  {
    var i := 0;
    while i < |checkNames|
      invariant 0 <= i <= |checkNames|
      invariant forall k :: 0 <= k < i ==> Occurs(checkNames[k], layers)
    {
      var found := false;
      var j := 0;
      while j < |layers|
        invariant 0 <= j <= |layers|
        invariant !found
        invariant forall k :: 0 <= k < j ==> layers[k] != checkNames[i]
      {
        if checkNames[i] == layers[j] {
          found := true;
          break;
        }
        j := j + 1;
      }
      if !found {
        return false, Some(checkNames[i]), i + 1;
      }
      i := i + 1;
    }
    return true, None, |checkNames|;
  }

  // ---------------------------------------------------------------------
  // Graphics queue family (the loop in Impl::CreateDevice)
  // ---------------------------------------------------------------------

  /** VkQueueFlags, a 32-bit mask. */
  type QueueFlags = bv32

  /** VK_QUEUE_GRAPHICS_BIT */
  const GraphicsBit: QueueFlags := 0x1

  predicate SupportsGraphics(flags: QueueFlags)
  {
    flags & GraphicsBit != 0
  }

  /**
   The family the device-creation loop settles on: it visits every family
   and overwrites its choice on each one with the graphics bit, so the answer
   is the highest such index, or UINT32_MAX when there is none. The family
   count is a uint32_t, so no valid index equals the sentinel.
   */
  function LastGraphicsFamily(families: seq<QueueFlags>): (r: nat)
    requires |families| <= Uint32Max
    ensures r == Uint32Max <==> forall i :: 0 <= i < |families| ==> !SupportsGraphics(families[i])
    ensures r != Uint32Max ==>
      && r < |families|
      && SupportsGraphics(families[r])
      && forall j :: r < j < |families| ==> !SupportsGraphics(families[j])
  {
    if |families| == 0 then Uint32Max
    else if SupportsGraphics(families[|families| - 1]) then |families| - 1
    else LastGraphicsFamily(families[..|families| - 1])
  }

  /**
   The device-creation loop itself: starting from UINT32_MAX it visits every
   family in order and records the index of each one with the graphics bit.
   */
  method ChooseGraphicsFamily(families: seq<QueueFlags>) returns (index: nat)
    requires |families| <= Uint32Max
    ensures index == LastGraphicsFamily(families)
  {
    index := Uint32Max;
    var i := 0;
    while i < |families|
      invariant 0 <= i <= |families|
      invariant index == LastGraphicsFamily(families[..i])
    {
      if SupportsGraphics(families[i]) {
        index := i;
      }
      assert families[..i + 1][..i] == families[..i];
      i := i + 1;
    }
    assert families[..|families|] == families;
  }

  /**
   The lowest family index with the graphics bit, or UINT32_MAX: the choice a
   scan that stops at its first hit would make.
   */
  function FirstGraphicsFamily(families: seq<QueueFlags>): (r: nat)
    requires |families| <= Uint32Max
    ensures r == Uint32Max <==> forall i :: 0 <= i < |families| ==> !SupportsGraphics(families[i])
    ensures r != Uint32Max ==>
      && r < |families|
      && SupportsGraphics(families[r])
      && forall j :: 0 <= j < r ==> !SupportsGraphics(families[j])
  {
    if |families| == 0 then Uint32Max
    else if SupportsGraphics(families[0]) then 0
    else
      var k := FirstGraphicsFamily(families[1..]);
      if k == Uint32Max then Uint32Max else k + 1
  }

  /**
   The loop's last-hit choice coincides with a first-hit choice exactly when
   at most one family has the graphics bit.
   */
  lemma LastIsFirstIffAtMostOneGraphicsFamily(families: seq<QueueFlags>)
    requires |families| <= Uint32Max
    ensures LastGraphicsFamily(families) == FirstGraphicsFamily(families) <==>
      forall i, j :: 0 <= i < j < |families| ==> !(SupportsGraphics(families[i]) && SupportsGraphics(families[j]))
  {
    var last, first := LastGraphicsFamily(families), FirstGraphicsFamily(families);
    if last == first {
      forall i, j | 0 <= i < j < |families|
        ensures !(SupportsGraphics(families[i]) && SupportsGraphics(families[j]))
      {
        if SupportsGraphics(families[i]) {
          assert first != Uint32Max && first <= i;
          assert last < j;
        }
      }
    } else {
      assert first < last;
      assert SupportsGraphics(families[first]) && SupportsGraphics(families[last]);
    }
  }

  // ---------------------------------------------------------------------
  // Device extensions (the search in Impl::EnumeratePhysicalDevice)
  // ---------------------------------------------------------------------

  /** VK_KHR_SWAPCHAIN_EXTENSION_NAME */
  const SwapchainExtensionName: Name := "VK_KHR_swapchain"

  /**
   The extension search: every reported extension is compared with the
   swapchain extension's name and a match sets the flag; the loop does not
   stop early, and an empty list leaves the flag false.
   */
  method FindSwapchainExtension(extensions: seq<Name>) returns (found: bool)
    ensures found <==> Occurs(SwapchainExtensionName, extensions)
  {
    found := false;
    if |extensions| > 0 {
      var i := 0;
      while i < |extensions|
        invariant 0 <= i <= |extensions|
        invariant found <==> exists j :: 0 <= j < i && extensions[j] == SwapchainExtensionName
      {
        if extensions[i] == SwapchainExtensionName {
          found := true;
        }
        i := i + 1;
      }
    }
  }
}
