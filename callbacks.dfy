/**
 * The two message callbacks registered with the validation layer: the
 * debug-utils messenger callback and the debug-report callback. Each
 * decides whether to write one line to standard output and always tells
 * the layer not to abort the call that produced the message.
 */
module Callbacks {
  import opened Wrappers
  import opened VulkanFlags
  import opened Text

  /** The compile-time switch that keeps only debug-printf messages; the program sets it. */
  const SHOW_ONLY_DEBUG_PRINTF_EXT_MESSAGES: bool := true

  /** What one callback invocation does: the line it writes, if any, and the `VkBool32` it returns. */
  datatype CallbackOutcome = CallbackOutcome(line: Option<string>, returnValue: bv32)

  const DEBUG_PREFIX: string := "[VULKAN DEBUG] : "
  const DEBUG_FLAGS_TAG: string := " : [FLAGS]: "
  const REPORT_PREFIX: string := "[VULKAN REPORT]: [FLAGS]: "
  const REPORT_LAYER_TAG: string := " [LAYER]: "
  const REPORT_MESSAGE_TAG: string := " [MESSAGE]: "

  /** The five severity labels, each padded to nine characters. */
  const SEVERITY_LABELS: seq<string> := ["[VERBOSE]", "[INFO]   ", "[WARNING]", "[ERROR]  ", "[UNKNOWN]"]

  /** The four severities the messenger callback recognises. */
  predicate IsKnownSeverity(severity: bv32) {
    severity == MESSAGE_SEVERITY_VERBOSE_BIT || severity == MESSAGE_SEVERITY_INFO_BIT ||
    severity == MESSAGE_SEVERITY_WARNING_BIT || severity == MESSAGE_SEVERITY_ERROR_BIT
  }

  predicate IsSingleBit(x: bv32) {
    x != 0 && x & (x - 1) == 0
  }

  /**
   * The severity `switch`: one label per severity bit, `[UNKNOWN]` for
   * anything else. The severity bits sit four positions apart, and bit 4k
   * selects the k-th label of SEVERITY_LABELS.
   */
  function SeverityLabel(severity: bv32): (name: string)
    ensures |name| == 9
    ensures name in SEVERITY_LABELS
    ensures name == "[UNKNOWN]" <==> !IsKnownSeverity(severity)
    ensures forall k :: 0 <= k < 4 && severity == (1 as bv32) << (4 * k) ==> name == SEVERITY_LABELS[k]
  {
    if severity == MESSAGE_SEVERITY_VERBOSE_BIT then "[VERBOSE]"
    else if severity == MESSAGE_SEVERITY_INFO_BIT then "[INFO]   "
    else if severity == MESSAGE_SEVERITY_WARNING_BIT then "[WARNING]"
    else if severity == MESSAGE_SEVERITY_ERROR_BIT then "[ERROR]  "
    else "[UNKNOWN]"
  }

  /** A severity word with no bit or several bits set is never recognised. */
  lemma UnknownUnlessSingleBit(severity: bv32)
    requires !IsSingleBit(severity)
    ensures SeverityLabel(severity) == "[UNKNOWN]"
  {
  }

  /** Different recognised severities get different labels. */
  lemma KnownSeverityLabelsDistinct(a: bv32, b: bv32)
    requires IsKnownSeverity(a) && IsKnownSeverity(b) && a != b
    ensures SeverityLabel(a) != SeverityLabel(b)
  {
  }

  /** The messenger callback's filter. */
  predicate DebugMessageShown(showOnlyDebugPrintf: bool, messageType: bv32) {
    !showOnlyDebugPrintf || messageType == MESSAGE_TYPE_VALIDATION_BIT
  }

  /** The fields a messenger line carries. */
  datatype DebugLine = DebugLine(severityLabel: string, messageType: nat, message: string)

  /** The text the messenger callback writes, without the trailing newline. */
  function FormatDebugLine(severity: bv32, messageType: bv32, message: string): string {
    DEBUG_PREFIX + SeverityLabel(severity) + DEBUG_FLAGS_TAG + DecimalString(messageType as nat) + "\t" + message
  }

  /** Reads a messenger line back into its fields. */
  function ParseDebugLine(line: string): Option<DebugLine> {
    if |line| < 38 || line[..17] != DEBUG_PREFIX || line[26..38] != DEBUG_FLAGS_TAG then None
    else
      var (digits, rest) := SplitDigits(line[38..]);
      if digits == [] || rest == [] || rest[0] != '\t' then None
      else Some(DebugLine(line[17..26], DecimalValue(digits), rest[1..]))
  }

  /** A messenger line determines its label, its message type and its message. */
  lemma DebugLineRoundTrip(severity: bv32, messageType: bv32, message: string)
    ensures ParseDebugLine(FormatDebugLine(severity, messageType, message))
         == Some(DebugLine(SeverityLabel(severity), messageType as nat, message))
  {
    var line := FormatDebugLine(severity, messageType, message);
    var severityLabel, digits := SeverityLabel(severity), DecimalString(messageType as nat);
    assert line == DEBUG_PREFIX + severityLabel + DEBUG_FLAGS_TAG + (digits + ("\t" + message));
    assert line[..17] == DEBUG_PREFIX;
    assert line[17..26] == severityLabel;
    assert line[26..38] == DEBUG_FLAGS_TAG;
    assert line[38..] == digits + ("\t" + message);
    SplitDigitsOfConcat(digits, "\t" + message);
    DecimalRoundTrip(messageType as nat);
  }

  /** The flags field of a messenger line is exactly the decimal text of the type word, ended by the tab. */
  lemma DebugFlagsField(severity: bv32, messageType: bv32, message: string)
    ensures |FormatDebugLine(severity, messageType, message)| >= 38
    ensures SplitDigits(FormatDebugLine(severity, messageType, message)[38..])
         == (DecimalString(messageType as nat), "\t" + message)
  {
    var line := FormatDebugLine(severity, messageType, message);
    var digits := DecimalString(messageType as nat);
    assert line == DEBUG_PREFIX + SeverityLabel(severity) + DEBUG_FLAGS_TAG + (digits + ("\t" + message));
    assert line[38..] == digits + ("\t" + message);
    SplitDigitsOfConcat(digits, "\t" + message);
  }

  /**
   * `VulkanDebugCallback`: with the filter on, only messages whose type is
   * exactly the validation bit are written; every call returns `VK_FALSE`.
   */
  function DebugCallback(showOnlyDebugPrintf: bool, severity: bv32, messageType: bv32, message: string)
    : (out: CallbackOutcome)
    ensures out.returnValue == VK_FALSE
    ensures out.line.Some? <==> (!showOnlyDebugPrintf || messageType == MESSAGE_TYPE_VALIDATION_BIT)
    ensures out.line.Some? ==>
      ParseDebugLine(out.line.value) == Some(DebugLine(SeverityLabel(severity), messageType as nat, message))
    ensures out.line.Some? ==>
      |out.line.value| >= 38 && SplitDigits(out.line.value[38..]) == (DecimalString(messageType as nat), "\t" + message)
    ensures out.line.Some? && showOnlyDebugPrintf ==>
      out.line.value == "[VULKAN DEBUG] : " + SeverityLabel(severity) + " : [FLAGS]: 2\t" + message
  {
    if !DebugMessageShown(showOnlyDebugPrintf, messageType) then
      CallbackOutcome(None, VK_FALSE)
    else
      DebugLineRoundTrip(severity, messageType, message);
      DebugFlagsField(severity, messageType, message);
      CallbackOutcome(Some(FormatDebugLine(severity, messageType, message)), VK_FALSE)
  }

  /** A message type carrying the validation bit together with any other bit is dropped when filtering. */
  lemma ValidationPlusOtherBitDropped(severity: bv32, messageType: bv32, message: string)
    requires messageType & MESSAGE_TYPE_VALIDATION_BIT != 0 && messageType != MESSAGE_TYPE_VALIDATION_BIT
    ensures DebugCallback(true, severity, messageType, message).line.None?
  {
  }

  /** The report callback's filter. */
  predicate ReportMessageShown(showOnlyDebugPrintf: bool, flags: bv32, message: string) {
    !showOnlyDebugPrintf || (flags == DEBUG_REPORT_INFORMATION_BIT && Find(message, "Validation").Some?)
  }

  /** The text the report callback writes, without the trailing newline. */
  function FormatReportLine(flags: bv32, layerPrefix: string, message: string): string {
    REPORT_PREFIX + DecimalString(flags as nat) + REPORT_LAYER_TAG + layerPrefix + REPORT_MESSAGE_TAG + message
  }

  /** A report line starts with the report prefix and ends with the message. */
  lemma ReportLineEnds(flags: bv32, layerPrefix: string, message: string)
    ensures var line := FormatReportLine(flags, layerPrefix, message);
      |line| > |REPORT_PREFIX| + |message| &&
      line[..|REPORT_PREFIX|] == REPORT_PREFIX &&
      line[|line| - |message|..] == message
  {
    var line := FormatReportLine(flags, layerPrefix, message);
    var middle := DecimalString(flags as nat) + REPORT_LAYER_TAG + layerPrefix + REPORT_MESSAGE_TAG;
    assert line == REPORT_PREFIX + middle + message;
    assert line[..|REPORT_PREFIX|] == REPORT_PREFIX;
    assert line[|line| - |message|..] == message;
  }

  /** The line for the information bit alone, the only flags the shipped filter lets through. */
  lemma ReportLineForInformation(layerPrefix: string, message: string)
    ensures FormatReportLine(DEBUG_REPORT_INFORMATION_BIT, layerPrefix, message)
         == "[VULKAN REPORT]: [FLAGS]: 1 [LAYER]: " + layerPrefix + " [MESSAGE]: " + message
  {
    assert DecimalString(DEBUG_REPORT_INFORMATION_BIT as nat) == "1";
    assert REPORT_PREFIX + "1" + REPORT_LAYER_TAG == "[VULKAN REPORT]: [FLAGS]: 1 [LAYER]: ";
  }

  /**
   * After the report prefix comes the canonical decimal text of the flags word, and
   * the rest of the line is the layer tag, the layer prefix, the message
   * tag and the message.
   */
  lemma ReportFields(flags: bv32, layerPrefix: string, message: string)
    ensures |FormatReportLine(flags, layerPrefix, message)| >= |REPORT_PREFIX|
    ensures var fields := SplitDigits(FormatReportLine(flags, layerPrefix, message)[|REPORT_PREFIX|..]);
      fields == (DecimalString(flags as nat), REPORT_LAYER_TAG + layerPrefix + REPORT_MESSAGE_TAG + message) &&
      DecimalValue(fields.0) == flags as nat
  {
    var line := FormatReportLine(flags, layerPrefix, message);
    var digits := DecimalString(flags as nat);
    var rest := REPORT_LAYER_TAG + layerPrefix + REPORT_MESSAGE_TAG + message;
    assert line == REPORT_PREFIX + (digits + rest);
    assert line[|REPORT_PREFIX|..] == digits + rest;
    assert rest[0] == ' ';
    SplitDigitsOfConcat(digits, rest);
    DecimalRoundTrip(flags as nat);
  }

  /**
   * `VulkanReportCallback`: with the filter on, a line is written exactly
   * when the flags are the information bit alone and the message contains
   * "Validation"; every call returns `VK_FALSE`.
   */
  function ReportCallback(showOnlyDebugPrintf: bool, flags: bv32, layerPrefix: string, message: string)
    : (out: CallbackOutcome)
    ensures out.returnValue == VK_FALSE
    ensures out.line.Some? <==>
      (!showOnlyDebugPrintf || (flags == DEBUG_REPORT_INFORMATION_BIT && Contains(message, "Validation")))
    ensures out.line.Some? ==>
      |out.line.value| > |REPORT_PREFIX| + |message| &&
      out.line.value[..|REPORT_PREFIX|] == REPORT_PREFIX &&
      out.line.value[|out.line.value| - |message|..] == message
    ensures out.line.Some? ==>
      var fields := SplitDigits(out.line.value[|REPORT_PREFIX|..]);
      fields == (DecimalString(flags as nat), REPORT_LAYER_TAG + layerPrefix + REPORT_MESSAGE_TAG + message) &&
      DecimalValue(fields.0) == flags as nat
    ensures out.line.Some? && showOnlyDebugPrintf ==>
      out.line.value == "[VULKAN REPORT]: [FLAGS]: 1 [LAYER]: " + layerPrefix + " [MESSAGE]: " + message
  {
    if !ReportMessageShown(showOnlyDebugPrintf, flags, message) then
      CallbackOutcome(None, VK_FALSE)
    else
      ReportLineEnds(flags, layerPrefix, message);
      ReportFields(flags, layerPrefix, message);
      ReportLineForInformation(layerPrefix, message);
      CallbackOutcome(Some(FormatReportLine(flags, layerPrefix, message)), VK_FALSE)
  }

  /**
   * With the switch as the program ships it, the messenger writes only
   * messages of exactly the validation type, and the report callback only
   * information messages that mention "Validation".
   */
  lemma ShippedFilters(severity: bv32, messageType: bv32, flags: bv32, layerPrefix: string, message: string)
    ensures DebugCallback(SHOW_ONLY_DEBUG_PRINTF_EXT_MESSAGES, severity, messageType, message).line.Some?
        <==> messageType == MESSAGE_TYPE_VALIDATION_BIT
    ensures ReportCallback(SHOW_ONLY_DEBUG_PRINTF_EXT_MESSAGES, flags, layerPrefix, message).line.Some?
        <==> flags == DEBUG_REPORT_INFORMATION_BIT && Contains(message, "Validation")
  {
  }
}
