/**
 * The Vulkan constants the program's decisions depend on, with the values
 * the Vulkan headers give them. Every flags word is a 32-bit `VkFlags`.
 */
module VulkanFlags {

  // VkQueueFlagBits ("Queue Family Properties", Vulkan specification, chapter "Devices and Queues")
  const QUEUE_GRAPHICS_BIT: bv32 := 0x1
  const QUEUE_COMPUTE_BIT: bv32 := 0x2
  const QUEUE_TRANSFER_BIT: bv32 := 0x4
  const QUEUE_SPARSE_BINDING_BIT: bv32 := 0x8

  // VkDebugUtilsMessageSeverityFlagBitsEXT
  const MESSAGE_SEVERITY_VERBOSE_BIT: bv32 := 0x1
  const MESSAGE_SEVERITY_INFO_BIT: bv32 := 0x10
  const MESSAGE_SEVERITY_WARNING_BIT: bv32 := 0x100
  const MESSAGE_SEVERITY_ERROR_BIT: bv32 := 0x1000

  // VkDebugUtilsMessageTypeFlagBitsEXT
  const MESSAGE_TYPE_VALIDATION_BIT: bv32 := 0x2

  // VkDebugReportFlagBitsEXT
  const DEBUG_REPORT_INFORMATION_BIT: bv32 := 0x1

  // VkBool32
  const VK_FALSE: bv32 := 0

  /** The `VkResult` codes the queue selection can produce (`VK_SUCCESS`, `VK_ERROR_INITIALIZATION_FAILED`). */
  datatype VkResult = Success | ErrorInitializationFailed
}
