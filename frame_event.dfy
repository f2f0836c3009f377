/** The event column of the frame table: a label derived from one frame and,
    for technology A responses, the frame before it. Every function here is
    total on the frames whose payload bytes it reads; an empty label is a
    normal outcome, not an error. */
module FrameEvents {

  import opened Wrappers
  import opened NfcFrames

  // ---------------------------------------------------------------------
  // Code tables (fixed at start-up, never modified)
  // ---------------------------------------------------------------------

  /** Technology A reader commands, keyed by the first payload byte. */
  const NfcACmd: map<int, string> := map[
    0x1A := "AUTH", 0x1B := "PWD_AUTH", 0x26 := "REQA", 0x30 := "READ",
    0x39 := "READ_CNT", 0x3A := "FAST_READ", 0x3C := "READ_SIG", 0x3E := "TEARING",
    0x4B := "VCSL", 0x50 := "HLTA", 0x52 := "WUPA", 0x60 := "AUTH",
    0x61 := "AUTH", 0x93 := "SEL1", 0x95 := "SEL2", 0x97 := "SEL3",
    0xA0 := "COMP_WRITE", 0xA2 := "WRITE", 0xA5 := "INCR_CNT", 0xE0 := "RATS"]

  /** Technology A tag answers, keyed by the first byte of the preceding command. */
  const NfcAResp: map<int, string> := map[0x26 := "ATQA", 0x52 := "ATQA"]

  /** Technology B reader commands, keyed by the first payload byte. */
  const NfcBCmd: map<int, string> := map[0x05 := "REQB", 0x1D := "ATTRIB", 0x50 := "HLTB"]

  /** Technology B tag answers, keyed by the first payload byte. */
  const NfcBResp: map<int, string> := map[0x05 := "ATQB"]

  /** Technology F reader commands, keyed by the second payload byte. */
  const NfcFCmd: map<int, string> := map[0x00 := "REQC"]

  /** Technology F tag answers, keyed by the second payload byte. */
  const NfcFResp: map<int, string> := map[0x00 := "ATQC"]

  /** Technology V (ISO/IEC 15693-3) reader commands, keyed by the second payload byte. */
  const NfcVCmd: map<int, string> := map[
    0x01 := "Inventory", 0x02 := "StayQuiet", 0x20 := "ReadBlock", 0x21 := "WriteBlock",
    0x22 := "LockBlock", 0x23 := "ReadBlocks", 0x24 := "WriteBlocks", 0x25 := "Select",
    0x26 := "Reset", 0x27 := "WriteAFI", 0x28 := "LockAFI", 0x29 := "WriteDSFID",
    0x2A := "LockDSFID", 0x2B := "SysInfo", 0x2C := "GetSecurity"]

  const IsoDepLabels: set<string> :=
    {"S(Deselect)", "S(WTX)", "R(ACK)", "R(NACK)", "I-Block", "R-Block", "S-Block"}

  /** Every label the technology A classifier can produce. */
  const NfcALabels: set<string> :=
    {"", "HALT", "PPS", "SAK", "UID", "ATS"} + IsoDepLabels + NfcACmd.Values + NfcAResp.Values

  /** Every label the technology B classifier can produce. */
  const NfcBLabels: set<string> := {""} + IsoDepLabels + NfcBCmd.Values + NfcBResp.Values

  // ---------------------------------------------------------------------
  // Hexadecimal rendering of an unknown command byte
  // ---------------------------------------------------------------------

  /** A lower-case hexadecimal digit, as `QString::arg` renders them. */
  predicate IsHexDigit(d: char)
  {
    '0' <= d <= '9' || 'a' <= d <= 'f'
  }

  /** The value of a lower-case hexadecimal digit. */
  function HexValue(d: char): (k: int)
    requires IsHexDigit(d)
    ensures 0 <= k < 16
  {
    if '0' <= d <= '9' then d as int - '0' as int else d as int - 'a' as int + 10
  }

  /** The digit for a value below 16; `HexValue` reads it back. */
  function HexDigit(k: int): (d: char)
    requires 0 <= k < 16
    ensures IsHexDigit(d) && HexValue(d) == k
  {
    if k < 10 then ('0' as int + k) as char else ('a' as int + k - 10) as char
  }

  /** `QString::arg(c, 2, 16, QChar('0'))` for one byte: two lower-case hex digits,
      zero padded on the left. Reading the digits back gives the byte. */
  function Hex2(c: Byte): (s: string)
    ensures |s| == 2 && IsHexDigit(s[0]) && IsHexDigit(s[1])
    ensures HexValue(s[0]) * 16 + HexValue(s[1]) == c as int
  {
    [HexDigit(c as int / 16), HexDigit(c as int % 16)]
  }

  /** A label of the synthesized "CMD xx" form. */
  predicate IsCmdLabel(s: string)
  {
    |s| == 6 && s[..4] == "CMD " && IsHexDigit(s[4]) && IsHexDigit(s[5])
  }

  /** The value of the byte a "CMD xx" label names. */
  function CmdValue(s: string): int
    requires IsCmdLabel(s)
  {
    HexValue(s[4]) * 16 + HexValue(s[5])
  }

  /** The synthesized label for a technology F or V command with no table entry:
      a "CMD xx" label that names the command byte. */
  function CmdLabel(c: Byte): (s: string)
    ensures IsCmdLabel(s)
    ensures CmdValue(s) == c as int
  {
    "CMD " + Hex2(c)
  }

  /** The other half of the round trip: every "CMD xx" label is the label of
      the byte it names, so the label and the byte determine each other. */
  lemma {:induction false} CmdLabelOfCmdValue(s: string, c: Byte)
    requires IsCmdLabel(s) && c as int == CmdValue(s)
    ensures CmdLabel(c) == s
  {
    var hi, lo := HexValue(s[4]), HexValue(s[5]);
    assert c as int / 16 == hi && c as int % 16 == lo;
    DigitRoundTrip(s[4]);
    DigitRoundTrip(s[5]);
    assert Hex2(c) == [s[4], s[5]];
    assert s == s[..4] + [s[4], s[5]];
  }

  lemma DigitRoundTrip(d: char)
    requires IsHexDigit(d)
    ensures HexDigit(HexValue(d)) == d
  {
  }

  // ---------------------------------------------------------------------
  // ISO-DEP block shapes, exactly the masks the classifier tests
  // ---------------------------------------------------------------------

  predicate IsDeselect(c: Byte, n: nat) { (c & 0xF7) == 0xC2 && 3 <= n <= 4 }

  predicate IsWtx(c: Byte, n: nat) { (c & 0xF7) == 0xF2 && 3 <= n <= 4 }

  predicate IsAck(c: Byte, n: nat) { (c & 0xF6) == 0xA2 && n == 3 }

  predicate IsNack(c: Byte, n: nat) { (c & 0xF6) == 0xB2 && n == 3 }

  predicate IsIBlock(c: Byte, n: nat) { (c & 0xE2) == 0x02 && n >= 4 }

  predicate IsRBlock(c: Byte, n: nat) { (c & 0xE6) == 0xA2 && n == 3 }

  predicate IsSBlock(c: Byte, n: nat) { (c & 0xC7) == 0xC2 && 3 <= n <= 4 }

  /** The ISO-DEP overlay shared by technologies A and B: the seven tests are tried
      in a fixed order and the first match wins. The contract shows what that order
      amounts to: the first five shapes never overlap, so each of their labels is
      produced exactly when its own mask matches; "S-Block" is left only with the
      S-block shapes that are neither a deselect nor a WTX; and "R-Block" is never
      produced, because every R-block shape is already an R(ACK) or an R(NACK). */
  function IsoDep(frame: NfcFrame): (r: string)
    requires |frame.data| >= 1
    ensures var c, n := frame.data[0], |frame.data|;
      && (r == "S(Deselect)" <==> IsDeselect(c, n))
      && (r == "S(WTX)" <==> IsWtx(c, n))
      && (r == "R(ACK)" <==> IsAck(c, n))
      && (r == "R(NACK)" <==> IsNack(c, n))
      && (r == "I-Block" <==> IsIBlock(c, n))
      && (r == "S-Block" <==> IsSBlock(c, n) && !IsDeselect(c, n) && !IsWtx(c, n))
      && (r == "" <==> !IsDeselect(c, n) && !IsWtx(c, n) && !IsAck(c, n) && !IsNack(c, n)
                       && !IsIBlock(c, n) && !IsRBlock(c, n) && !IsSBlock(c, n))
    ensures r != "R-Block"
    ensures r in IsoDepLabels + {""}
    ensures r != "" ==> |frame.data| >= 3
  {
    var c, n := frame.data[0], |frame.data|;
    if IsDeselect(c, n) then "S(Deselect)"
    else if IsWtx(c, n) then "S(WTX)"
    else if IsAck(c, n) then "R(ACK)"
    else if IsNack(c, n) then "R(NACK)"
    else if IsIBlock(c, n) then "I-Block"
    else if IsRBlock(c, n) then "R-Block"
    else if IsSBlock(c, n) then "S-Block"
    else ""
  }

  // ---------------------------------------------------------------------
  // Payload reads: which bytes each classifier path reads
  // ---------------------------------------------------------------------

  /** A previous frame that the technology A answer path keys on. */
  predicate HasPollBefore(prev: Option<NfcFrame>)
  {
    prev.Some? && prev.value.IsPollFrame()
  }

  /** The technology A classifier reads byte 0 of a plain poll frame, and byte 0 of
      both a plain answer and the poll frame before it. */
  predicate ReadableA(frame: NfcFrame, prev: Option<NfcFrame>)
  {
    frame.encrypted
    || (if frame.IsPollFrame() then |frame.data| >= 1
        else HasPollBefore(prev) ==> |prev.value.data| >= 1 && |frame.data| >= 1)
  }

  /** The classifier reads only bytes that exist. */
  predicate Readable(frame: NfcFrame, prev: Option<NfcFrame>)
  {
    frame.IsCarrierOn() || frame.IsCarrierOff() ||
    match frame.techType
    case NoTech => true
    case NfcA => ReadableA(frame, prev)
    case NfcB => |frame.data| >= 1
    case NfcF => |frame.data| >= 2
    case NfcV => frame.IsPollFrame() ==> |frame.data| >= 2
  }

  // ---------------------------------------------------------------------
  // Per-technology classifiers
  // ---------------------------------------------------------------------

  predicate IsSelect(c: Byte) { c == 0x93 || c == 0x95 || c == 0x97 }

  /** A technology A poll frame that is classified: one that is not encrypted. */
  predicate PlainPollA(frame: NfcFrame)
  {
    !frame.encrypted && frame.IsPollFrame()
  }

  /** A technology A frame classified as an answer: not encrypted, not a poll
      frame, and right after a poll frame. */
  predicate PlainAnswerA(frame: NfcFrame, prev: Option<NfcFrame>)
  {
    !frame.encrypted && !frame.IsPollFrame() && HasPollBefore(prev)
  }

  /** Technology A. An encrypted frame is never classified. A poll frame is checked
      for HALT, then PPS, then the ISO-DEP overlay, then the command table. Any other
      frame is classified only against a preceding poll frame: SAK or UID after an
      anticollision select, ATS after RATS, then the overlay, then the answer table.
      The contract states what the order amounts to: each of the labels HALT, PPS,
      SAK, UID and ATS is produced exactly on its own shape, and nothing but a
      plain poll or a plain answer is labelled. */
  function EventNfcA(frame: NfcFrame, prev: Option<NfcFrame>): (r: string)
    requires ReadableA(frame, prev)
    ensures PlainPollA(frame) ==> var c, n := frame.data[0], |frame.data|;
      && (r == "HALT" <==> c == 0x50 && n == 4)
      && (r == "PPS" <==> (c & 0xF0) == 0xD0 && n == 5)
      && r != "SAK" && r != "UID" && r != "ATS"
    ensures PlainAnswerA(frame, prev) ==> var p, n := prev.value.data[0], |frame.data|;
      && (r == "SAK" <==> IsSelect(p) && n == 3)
      && (r == "UID" <==> IsSelect(p) && n == 5)
      && (r == "ATS" <==> p == 0xE0 && frame.data[0] as int == n - 2)
      && r != "HALT" && r != "PPS"
    ensures !PlainPollA(frame) && !PlainAnswerA(frame, prev) ==> r == ""
  {
    if frame.encrypted then ""
    else if frame.IsPollFrame() then
      var command := frame.data[0];
      if command == 0x50 && |frame.data| == 4 then "HALT"
      else if (command & 0xF0) == 0xD0 && |frame.data| == 5 then "PPS"
      else if IsoDep(frame) != "" then IsoDep(frame)
      else if command as int in NfcACmd then NfcACmd[command as int]
      else ""
    else if HasPollBefore(prev) then
      var command := prev.value.data[0];
      if IsSelect(command) && |frame.data| == 3 then "SAK"
      else if IsSelect(command) && |frame.data| == 5 then "UID"
      else if command == 0xE0 && frame.data[0] as int == |frame.data| - 2 then "ATS"
      else if IsoDep(frame) != "" then IsoDep(frame)
      else if command as int in NfcAResp then NfcAResp[command as int]
      else ""
    else ""
  }

  /** Technology B: the ISO-DEP overlay first, then the command or answer table.
      The previous frame is not consulted. */
  function EventNfcB(frame: NfcFrame, prev: Option<NfcFrame>): (r: string)
    requires frame.IsPollFrame() || frame.IsListenFrame() ==> |frame.data| >= 1
    ensures !frame.IsPollFrame() && !frame.IsListenFrame() ==> r == ""
    ensures frame.IsPollFrame() || frame.IsListenFrame() ==>
      (r in IsoDepLabels <==> IsoDep(frame) != "")
  {
    if frame.IsPollFrame() then
      var command := frame.data[0];
      if IsoDep(frame) != "" then IsoDep(frame)
      else if command as int in NfcBCmd then NfcBCmd[command as int]
      else ""
    else if frame.IsListenFrame() then
      var command := frame.data[0];
      if IsoDep(frame) != "" then IsoDep(frame)
      else if command as int in NfcBResp then NfcBResp[command as int]
      else ""
    else ""
  }

  /** Technology F: keyed on the second payload byte, which is read whatever the
      frame type. An unknown command gets a synthesized "CMD xx" label. */
  function EventNfcF(frame: NfcFrame, prev: Option<NfcFrame>): (r: string)
    requires |frame.data| >= 2
    ensures frame.IsPollFrame() ==> r != ""
    ensures !frame.IsPollFrame() && !frame.IsListenFrame() ==> r == ""
  {
    var command := frame.data[1];
    if frame.IsPollFrame() then
      if command as int in NfcFCmd then NfcFCmd[command as int] else CmdLabel(command)
    else if frame.IsListenFrame() then
      if command as int in NfcFResp then NfcFResp[command as int] else ""
    else ""
  }

  /** Technology V: poll frames only, keyed on the second payload byte. */
  function EventNfcV(frame: NfcFrame, prev: Option<NfcFrame>): (r: string)
    requires frame.IsPollFrame() ==> |frame.data| >= 2
    ensures frame.IsPollFrame() <==> r != ""
  {
    if frame.IsPollFrame() then
      var command := frame.data[1];
      if command as int in NfcVCmd then NfcVCmd[command as int] else CmdLabel(command)
    else ""
  }

  /** Every fixed label the classifier knows. */
  const FixedLabels: set<string> :=
    {"RF-On", "RF-Off"} + NfcALabels + NfcBLabels
    + NfcFCmd.Values + NfcFResp.Values + NfcVCmd.Values

  /** The event label of a frame: carrier transitions first, whatever the
      technology and the payload, then the technology's own classifier. */
  function FrameEvent(frame: NfcFrame, prev: Option<NfcFrame>): (r: string)
    requires Readable(frame, prev)
    ensures frame.IsCarrierOn() ==> r == "RF-On"
    ensures frame.IsCarrierOff() ==> r == "RF-Off"
  {
    if frame.IsCarrierOn() then "RF-On"
    else if frame.IsCarrierOff() then "RF-Off"
    else
      match frame.techType
      case NfcA => EventNfcA(frame, prev)
      case NfcB => EventNfcB(frame, prev)
      case NfcF => EventNfcF(frame, prev)
      case NfcV => EventNfcV(frame, prev)
      case NoTech => ""
  }

  /** The technology column: a name for each of the four technologies, empty for
      any other tag; the name determines the technology. */
  function FrameTech(frame: NfcFrame): (r: string)
    ensures r == "" <==> frame.techType == NoTech
    ensures TechOfName(r) == frame.techType
  {
    match frame.techType
    case NfcA => "NfcA"
    case NfcB => "NfcB"
    case NfcF => "NfcF"
    case NfcV => "NfcV"
    case NoTech => ""
  }

  /** The technology a name from the technology column stands for. */
  function TechOfName(name: string): TechType
  {
    if name == "NfcA" then NfcA
    else if name == "NfcB" then NfcB
    else if name == "NfcF" then NfcF
    else if name == "NfcV" then NfcV
    else NoTech
  }
}
