/**
 * Checking, before the instance is created, that the host offers every
 * instance layer and instance extension the program enables. A name is
 * a C string without its terminating NUL, so `strcmp(a, b) == 0` is
 * equality of the two strings.
 */
module InstanceCapabilities {
  import opened Wrappers

  /** The instance layers the program enables. */
  const REQUIRED_INSTANCE_LAYERS: seq<string> := ["VK_LAYER_KHRONOS_validation"]

  /** The instance extensions the program enables (debug utils, then debug report). */
  const REQUIRED_INSTANCE_EXTENSIONS: seq<string> := ["VK_EXT_debug_utils", "VK_EXT_debug_report"]

  /** Every required name equals some available name. */
  predicate AllAvailable(required: seq<string>, available: seq<string>) {
    forall k :: 0 <= k < |required| ==> required[k] in available
  }

  /**
   * The nested search shared by the layer and the extension check.
   * `enumerated` tells whether the host's list was asked for at all: an
   * empty required list answers true before enumerating.
   */
  method VerifyNames(required: seq<string>, available: seq<string>) returns (allPresent: bool, enumerated: bool)
    ensures allPresent <==> AllAvailable(required, available)
    ensures enumerated <==> required != []
  {
    if |required| == 0 {
      return true, false;
    }

    var i := 0;
    while i < |required|
      invariant 0 <= i <= |required|
      invariant forall k :: 0 <= k < i ==> required[k] in available
    {
      var layerFound := false;
      var j := 0;
      while j < |available|
        invariant 0 <= j <= |available|
        invariant !layerFound
        invariant forall m :: 0 <= m < j ==> available[m] != required[i]
      {
        if required[i] == available[j] {
          layerFound := true;
          break;
        }
        j := j + 1;
      }

      if !layerFound {
        assert required[i] !in available;
        return false, true;
      }
      i := i + 1;
    }

    return true, true;
  }

  /** The layer check: true exactly when the Khronos validation layer is available. */
  method VerifyInstanceLayers(availableLayers: seq<string>) returns (present: bool)
    ensures present <==> AllAvailable(REQUIRED_INSTANCE_LAYERS, availableLayers)
    ensures present <==> "VK_LAYER_KHRONOS_validation" in availableLayers
  {
    var enumerated;
    present, enumerated := VerifyNames(REQUIRED_INSTANCE_LAYERS, availableLayers);
    assert REQUIRED_INSTANCE_LAYERS[0] == "VK_LAYER_KHRONOS_validation";
  }

  /** The extension check: true exactly when both debug extensions are available. */
  method VerifyInstanceExtensions(availableExtensions: seq<string>) returns (present: bool)
    ensures present <==> AllAvailable(REQUIRED_INSTANCE_EXTENSIONS, availableExtensions)
    ensures present <==> "VK_EXT_debug_utils" in availableExtensions && "VK_EXT_debug_report" in availableExtensions
  {
    var enumerated;
    present, enumerated := VerifyNames(REQUIRED_INSTANCE_EXTENSIONS, availableExtensions);
    assert REQUIRED_INSTANCE_EXTENSIONS[0] == "VK_EXT_debug_utils";
    assert REQUIRED_INSTANCE_EXTENSIONS[1] == "VK_EXT_debug_report";
  }

  /**
   * The start of the program: both checks run, and the process ends with
   * status 1 before any instance is created unless both succeed.
   * `None` means the program goes on to create the instance.
   */
  method CheckCapabilities(availableLayers: seq<string>, availableExtensions: seq<string>)
    returns (earlyExitStatus: Option<int>)
    ensures earlyExitStatus.None? <==>
      AllAvailable(REQUIRED_INSTANCE_LAYERS, availableLayers) &&
      AllAvailable(REQUIRED_INSTANCE_EXTENSIONS, availableExtensions)
    ensures earlyExitStatus.Some? ==> earlyExitStatus.value == 1
  {
    var instanceLayersPresent := VerifyInstanceLayers(availableLayers);
    var instanceExtensionsPresent := VerifyInstanceExtensions(availableExtensions);

    if !instanceLayersPresent || !instanceExtensionsPresent {
      return Some(1);
    }
    return None;
  }

  /** Offering more names never turns a passing check into a failing one. */
  lemma AllAvailableMonotone(required: seq<string>, available: seq<string>, more: seq<string>)
    requires AllAvailable(required, available)
    requires forall k :: 0 <= k < |available| ==> available[k] in more
    ensures AllAvailable(required, more)
  {
  }

  /** The check depends on the required names only as a set: order and repetition do not matter. */
  lemma AllAvailableAsSets(required: seq<string>, available: seq<string>)
    ensures AllAvailable(required, available) <==> (set r | r in required) <= (set a | a in available)
  {
    if AllAvailable(required, available) {
      forall r | r in required
        ensures r in available
      {
        var k :| 0 <= k < |required| && required[k] == r;
      }
    } else {
      var k :| 0 <= k < |required| && required[k] !in available;
      var requiredSet, availableSet := set r | r in required, set a | a in available;
      assert required[k] in requiredSet && required[k] !in availableSet;
      assert !(requiredSet <= availableSet);
    }
  }
}
