/**
 * Choosing the queue family the compute shaders run on, from the
 * `queueFlags` word of each family the physical device reports, in the
 * order the device reports them.
 */
module QueueSelection {
  import opened Wrappers
  import opened VulkanFlags

  /** The bits both passes ignore: transfer and sparse binding. */
  const IGNORED_QUEUE_BITS: bv32 := QUEUE_TRANSFER_BIT | QUEUE_SPARSE_BINDING_BIT

  /** A family's flags with the ignored bits cleared and every other bit kept. */
  function MaskedFlags(flags: bv32): (masked: bv32)
    ensures masked & IGNORED_QUEUE_BITS == 0
    ensures masked | (flags & IGNORED_QUEUE_BITS) == flags
  {
    !IGNORED_QUEUE_BITS & flags
  }

  /** What the first pass looks for: compute without graphics. */
  predicate IsComputeOnly(flags: bv32) {
    MaskedFlags(flags) & QUEUE_GRAPHICS_BIT == 0 && MaskedFlags(flags) & QUEUE_COMPUTE_BIT != 0
  }

  /** What the second pass looks for: compute, with or without graphics. */
  predicate HasCompute(flags: bv32) {
    MaskedFlags(flags) & QUEUE_COMPUTE_BIT != 0
  }

  /** The smallest index whose family satisfies `p`, if any. */
  function FirstMatch(families: seq<bv32>, p: bv32 -> bool): (r: Option<nat>)
    ensures r.Some? ==> r.value < |families| && p(families[r.value])
    ensures r.Some? ==> forall j :: 0 <= j < r.value ==> !p(families[j])
    ensures r.None? <==> forall j :: 0 <= j < |families| ==> !p(families[j])
  {
    if families == [] then None
    else if p(families[0]) then Some(0)
    else match FirstMatch(families[1..], p)
      case None => None
      case Some(i) => Some(i + 1)
  }

  /** The family the program selects: a compute-only family first, then any compute family. */
  function BestComputeQueue(families: seq<bv32>): (r: Option<nat>)
    ensures r.Some? <==> exists i :: 0 <= i < |families| && HasCompute(families[i])
    ensures r.Some? ==> r.value < |families| && HasCompute(families[r.value])
  {
    var computeOnly := FirstMatch(families, IsComputeOnly);
    if computeOnly.Some? then computeOnly else FirstMatch(families, HasCompute)
  }

  /**
   * The selection loops after the family properties are fetched.
   * `queueFamilyIndex` is the caller's variable passed by reference: the
   * method returns its new value, which is the old one on failure.
   */
  method GetBestComputeQueue(queueFamilyFlags: seq<bv32>, queueFamilyIndex: nat)
    returns (result: VkResult, newQueueFamilyIndex: nat)
    ensures result == Success <==> exists i :: 0 <= i < |queueFamilyFlags| && HasCompute(queueFamilyFlags[i])
    ensures result == Success ==>
      newQueueFamilyIndex < |queueFamilyFlags| && HasCompute(queueFamilyFlags[newQueueFamilyIndex])
    ensures (exists i :: 0 <= i < |queueFamilyFlags| && IsComputeOnly(queueFamilyFlags[i])) ==>
      result == Success && IsComputeOnly(queueFamilyFlags[newQueueFamilyIndex]) &&
      forall j :: 0 <= j < newQueueFamilyIndex ==> !IsComputeOnly(queueFamilyFlags[j])
    ensures (forall i :: 0 <= i < |queueFamilyFlags| ==> !IsComputeOnly(queueFamilyFlags[i])) && result == Success ==>
      forall j :: 0 <= j < newQueueFamilyIndex ==> !HasCompute(queueFamilyFlags[j])
    ensures result != Success ==> result == ErrorInitializationFailed && newQueueFamilyIndex == queueFamilyIndex
    ensures BestComputeQueue(queueFamilyFlags) == if result == Success then Some(newQueueFamilyIndex) else None
  {
    var i := 0;
    while i < |queueFamilyFlags|
      invariant 0 <= i <= |queueFamilyFlags|
      invariant forall j :: 0 <= j < i ==> !IsComputeOnly(queueFamilyFlags[j])
    {
      var maskedFlags := MaskedFlags(queueFamilyFlags[i]);
      if maskedFlags & QUEUE_GRAPHICS_BIT == 0 && maskedFlags & QUEUE_COMPUTE_BIT != 0 {
        return Success, i;
      }
      i := i + 1;
    }

    i := 0;
    while i < |queueFamilyFlags|
      invariant 0 <= i <= |queueFamilyFlags|
      invariant forall j :: 0 <= j < i ==> !HasCompute(queueFamilyFlags[j])
    {
      var maskedFlags := MaskedFlags(queueFamilyFlags[i]);
      if maskedFlags & QUEUE_COMPUTE_BIT != 0 {
        return Success, i;
      }
      i := i + 1;
    }

    return ErrorInitializationFailed, queueFamilyIndex;
  }

  /**
   * Transfer and sparse-binding bits never influence which family is chosen.
   * Both passes test only masked flags, and FirstMatch's contract fixes the
   * first index that passes, so the verifier needs no further steps.
   */
  lemma IgnoredBitsIrrelevant(a: seq<bv32>, b: seq<bv32>)
    requires |a| == |b|
    requires forall i :: 0 <= i < |a| ==> MaskedFlags(a[i]) == MaskedFlags(b[i])
    ensures BestComputeQueue(a) == BestComputeQueue(b)
  {
  }

  /** A compute-only family, if the device has one, is preferred over every family with graphics. */
  lemma ComputeOnlyPreferred(families: seq<bv32>, i: nat)
    requires i < |families| && IsComputeOnly(families[i])
    ensures BestComputeQueue(families).Some?
    ensures BestComputeQueue(families).value <= i
    ensures MaskedFlags(families[BestComputeQueue(families).value]) & QUEUE_GRAPHICS_BIT == 0
  {
  }

  /** Families [graphics+compute, compute-only]: the compute-only family 1 is chosen. */
  lemma ComputeOnlyFamilyChosen()
    ensures BestComputeQueue([QUEUE_GRAPHICS_BIT | QUEUE_COMPUTE_BIT, QUEUE_COMPUTE_BIT]) == Some(1)
  {
    var families := [QUEUE_GRAPHICS_BIT | QUEUE_COMPUTE_BIT, QUEUE_COMPUTE_BIT];
    assert !IsComputeOnly(families[0]) && IsComputeOnly(families[1]);
  }

  /** Families [graphics+compute]: the second pass chooses family 0. */
  lemma SecondPassChoosesGraphicsCompute()
    ensures BestComputeQueue([QUEUE_GRAPHICS_BIT | QUEUE_COMPUTE_BIT]) == Some(0)
  {
  }
}
