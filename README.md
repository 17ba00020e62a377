# VulkanPrintf decision logic in Dafny

VulkanPrintf is a small headless Vulkan program. It runs two compute shaders
that call `debugPrintfEXT`/`printf` and routes the text they emit back to the
host through the validation layer. Almost all of it is a fixed sequence of
Vulkan calls. This project models the few decisions the program makes itself,
over plain sequences, strings and 32-bit flag words instead of Vulkan handles:

- **Queue-family selection** (`GetBestComputeQueue`). Each family's
  `queueFlags` word has its transfer and sparse-binding bits masked out.
  A first pass takes the first family with compute and without graphics.
  A second pass takes the first family with compute. If neither finds one,
  the result is `VK_ERROR_INITIALIZATION_FAILED` and the caller's
  `queueFamilyIndex` is left as it was. The by-reference out-parameter is
  modelled as an input value plus the returned new value.
- **Capability checks** (`VerifyInstanceLayers`, `VerifyInstanceExtensions`
  and the gate at the start of `main`). Nested loops with a `layerFound` flag
  decide whether every required name equals some name the host reports.
  An empty required list answers true without asking the host.
  The returned `enumerated` flag records whether the host was asked.
- **The two message callbacks.** The debug-utils callback keeps a message only
  if its type word is exactly the validation bit. It labels the severity with
  one of five nine-character labels. The debug-report callback keeps a message
  only if its flags are exactly the information bit and the message contains
  `Validation`. Both always return `VK_FALSE`. The compile-time filter switch
  is a boolean parameter. The constant `SHOW_ONLY_DEBUG_PRINTF_EXT_MESSAGES`
  holds the value the program uses. The written line is returned as an
  optional string, without the newline `std::endl` adds.

Files: `vulkan_flags.dfy` (the Vulkan constants and result codes),
`wrappers.dfy` (`Option`), `queue_selection.dfy`, `instance_capabilities.dfy`,
`text.dfy` (decimal output of an unsigned integer and `std::string::find`),
`callbacks.dfy`.

The message line format follows the code. The debug line puts a tab between
the flags number and the message (main.cpp:95). The report callback's extra
check that the message contains `Validation` (main.cpp:132-136) is modelled
as written.

## Model

| member | source | states |
|---|---|---|
| QueueSelection.MaskedFlags | main.cpp:379 | the masked word has the transfer and sparse-binding bits clear and keeps every other bit of the family's flags |
| QueueSelection.FirstMatch | main.cpp:376-386 | the first-match scan returns the smallest index whose family satisfies the test, or nothing exactly when no family does |
| QueueSelection.BestComputeQueue | main.cpp:375-401 | a family is chosen exactly when some family has the compute bit after masking, and the chosen family is in range and has the compute bit |
| QueueSelection.GetBestComputeQueue | main.cpp:362-402 | success iff some family has compute; the index is then in range with compute; it is the first compute-only family when one exists, else the first compute family; on failure the result is ErrorInitializationFailed and the caller's index is unchanged; the outcome equals BestComputeQueue |
| QueueSelection.IgnoredBitsIrrelevant | main.cpp:378-394 | two family lists that agree on every bit except transfer and sparse binding select the same family |
| QueueSelection.ComputeOnlyPreferred | main.cpp:375-386 | if some family is compute-only, the chosen family is at or before it and has no graphics bit |
| QueueSelection.ComputeOnlyFamilyChosen | main.cpp:376-386 | families [graphics+compute, compute] select family 1 |
| QueueSelection.SecondPassChoosesGraphicsCompute | main.cpp:388-399 | families [graphics+compute] select family 0 on the second pass |
| InstanceCapabilities.VerifyNames | main.cpp:161-194 | returns true iff every required name equals some available name; the host list is enumerated iff the required list is non-empty |
| InstanceCapabilities.VerifyInstanceLayers | main.cpp:161-194 | true iff "VK_LAYER_KHRONOS_validation" is among the available layers |
| InstanceCapabilities.VerifyInstanceExtensions | main.cpp:197-230 | true iff both "VK_EXT_debug_utils" and "VK_EXT_debug_report" are among the available extensions |
| InstanceCapabilities.CheckCapabilities | main.cpp:540-546 | the program continues iff all required layers and extensions are present, and otherwise exits with status 1 |
| InstanceCapabilities.AllAvailableMonotone | main.cpp:174-191 | a host that offers more names still passes a check it passed |
| InstanceCapabilities.AllAvailableAsSets | main.cpp:174-191 | the check passes iff the set of required names is a subset of the set of available names |
| Text.DecimalString | main.cpp:95 | the printed flags word is a non-empty run of decimal digits with no leading zero unless it is 0 |
| Text.DecimalRoundTrip | main.cpp:95 | reading the printed digits back gives the flags word |
| Text.DecimalStringInjective | main.cpp:139 | different flag words print differently |
| Text.SplitDigitsOfConcat | main.cpp:95 | a digit run followed by a non-digit splits back into exactly those two parts |
| Text.FindFrom | main.cpp:133 | the result is the first occurrence at or after the start position, or nothing when no occurrence exists there |
| Text.Find | main.cpp:133 | `find` succeeds iff the pattern occurs in the message, and then at the first such position |
| Callbacks.SeverityLabel | main.cpp:66-93 | the label is one of the five labels and is 9 characters long; it is "[UNKNOWN]" iff the severity is not one of the four recognised bits; the severity bit at position 4k (VERBOSE 0x1, INFO 0x10, WARNING 0x100, ERROR 0x1000) gets the k-th label of "[VERBOSE]", "[INFO]   ", "[WARNING]", "[ERROR]  " |
| Callbacks.UnknownUnlessSingleBit | main.cpp:88-92 | a severity word with zero or several bits set gets "[UNKNOWN]" |
| Callbacks.KnownSeverityLabelsDistinct | main.cpp:66-93 | the four recognised severities get four different labels |
| Callbacks.DebugLineRoundTrip | main.cpp:64-95 | a debug line can be read back into its severity label, its message-type number and its message |
| Callbacks.DebugFlagsField | main.cpp:95 | the flags field of the line written by FormatDebugLine is exactly the decimal text of the type word, followed by the tab and the message |
| Callbacks.DebugCallback | main.cpp:43-98 | returns VK_FALSE always; writes a line (the text of FormatDebugLine) iff the filter is off or the type is exactly the validation bit; the line reads back to the severity label, the type word and the message, its flags field is the canonical decimal of the type word, and with filtering on it reads "[VULKAN DEBUG] : <label> : [FLAGS]: 2<tab><message>" |
| Callbacks.ValidationPlusOtherBitDropped | main.cpp:58-61 | with filtering on, a type word holding the validation bit and any other bit writes nothing |
| Callbacks.ReportLineEnds | main.cpp:139 | the line written by FormatReportLine starts with the report prefix and ends with the message |
| Callbacks.ReportLineForInformation | main.cpp:139 | for the information bit the line reads "[VULKAN REPORT]: [FLAGS]: 1 [LAYER]: <layer> [MESSAGE]: <message>" |
| Callbacks.ReportFields | main.cpp:139 | after the report prefix the line holds exactly the canonical decimal text of the flags word (reading it back gives the flags), then exactly the layer tag, the layer prefix, the message tag and the message |
| Callbacks.ReportCallback | main.cpp:108-141 | returns VK_FALSE always; writes a line (the text of FormatReportLine) iff the filter is off or the flags are exactly the information bit and the message contains "Validation"; the line starts with the report prefix and ends with the message; the flags field is exactly the canonical decimal text of the flags word, reads back to it, and is followed by exactly the layer tag, layer prefix, message tag and message; with filtering on it reads "[VULKAN REPORT]: [FLAGS]: 1 [LAYER]: <layer> [MESSAGE]: <message>" |
| Callbacks.ShippedFilters | main.cpp:9 | with the switch set as the program ships it, the messenger writes a line iff the type word is exactly the validation bit, and the report callback iff the flags are exactly the information bit and the message contains "Validation" |

## Left out

- All Vulkan API calls and handle lifetimes: instance creation with the validation-features chain, debug-sink creation and destruction through `vkGetInstanceProcAddr`, device enumeration and creation, and the shader run in `RunComputeShader`. Their behaviour belongs to the loader, the validation layer and the driver.
- The two enumeration calls that fetch the host's layers, extensions and queue-family properties. Their results are the inputs of the model.
- The `_malloca` allocation in `GetBestComputeQueue` and its `VK_ERROR_OUT_OF_DEVICE_MEMORY` branch, and the `malloc` in `EnumerateDevices`. Allocator behaviour is not part of the decision logic.
- `readFile`: file I/O and its exception.
- Writing to `std::cout`, the trailing newline, and the `EXIT_ON_BAD_RESULT` macro that ends the process. The model returns the line or the exit status instead.
- The callbacks' unused parameters (`pUserData`, and the object type, object, location and message code of the report callback).
- QueueSelection.GetBestComputeQueue: the family count and the index are unbounded naturals rather than `uint32_t`; the device reports far fewer families than 2^32.
- InstanceCapabilities.VerifyNames: names are modelled as strings without their NUL terminator, so `strcmp` equality is string equality; the fixed 256-byte name buffers are not modelled. The callbacks' `pMessage` and `pLayerPrefix` are NUL-terminated byte strings too, and the model treats them as sequences of characters; the search for the ASCII word "Validation" gives the same answer either way, but byte encodings of non-ASCII text are not modelled.
- GPU execution of the dispatch and the shaders' printf output.
