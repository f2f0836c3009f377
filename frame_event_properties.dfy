/** Properties of the event classifier: the priority of its tests, which frames
    it leaves unlabelled, which labels it can never produce, and the worked
    exchanges of the protocols it recognises. */
module FrameEventProperties {

  import opened Wrappers
  import opened NfcFrames
  import opened FrameEvents

  /** A frame that is neither a carrier transition: one that reaches the
      technology dispatch. */
  predicate IsTraffic(frame: NfcFrame)
  {
    frame.IsPollFrame() || frame.IsListenFrame()
  }

  /** Encrypted technology A traffic is never labelled, whatever its bytes. */
  lemma EncryptedNfcAIsSilent(frame: NfcFrame, prev: Option<NfcFrame>)
    requires frame.techType == NfcA && frame.encrypted && IsTraffic(frame)
    ensures Readable(frame, prev) && FrameEvent(frame, prev) == ""
  {
  }

  /** Traffic of an unknown technology is never labelled. */
  lemma UnknownTechIsSilent(frame: NfcFrame, prev: Option<NfcFrame>)
    requires frame.techType == NoTech && IsTraffic(frame)
    ensures Readable(frame, prev) && FrameEvent(frame, prev) == ""
  {
  }

  /** A command byte of the technology A table whose frames, at some length, are
      taken by an earlier test: 0x50 by HALT at four bytes, AUTH (0x1A) and
      PWD_AUTH (0x1B) by the I-block shape from four bytes on, and WRITE (0xA2)
      by the R(ACK) shape at three bytes. */
  predicate HiddenCommandA(c: Byte, n: nat)
  {
    (c == 0x50 && n == 4) || ((c == 0x1A || c == 0x1B) && n >= 4) || (c == 0xA2 && n == 3)
  }

  /** Which technology A table entries are reachable: a plain poll frame whose
      command is in the table gets the table's name exactly when no earlier test
      takes it. */
  lemma {:induction false} NfcACommandShadowing(frame: NfcFrame, prev: Option<NfcFrame>)
    requires frame.techType == NfcA && PlainPollA(frame) && |frame.data| >= 1
    requires frame.data[0] as int in NfcACmd
    ensures Readable(frame, prev)
    ensures FrameEvent(frame, prev) == NfcACmd[frame.data[0] as int]
            <==> !HiddenCommandA(frame.data[0], |frame.data|)
  {
  }

  /** A plain technology A poll frame is unlabelled exactly when its command is
      not in the table, it is not a PPS and it has no ISO-DEP shape. */
  lemma {:induction false} NfcAPollSilent(frame: NfcFrame, prev: Option<NfcFrame>)
    requires frame.techType == NfcA && PlainPollA(frame) && |frame.data| >= 1
    ensures Readable(frame, prev)
    ensures var c, n := frame.data[0], |frame.data|;
      FrameEvent(frame, prev) == ""
      <==> c as int !in NfcACmd && !((c & 0xF0) == 0xD0 && n == 5) && IsoDep(frame) == ""
  {
  }

  /** The HALT test comes before the table: a four-byte 0x50 frame is "HALT",
      while a shorter one falls through to the table's "HLTA". */
  lemma HaltBeforeTable()
    ensures FrameEvent(NfcFrame(NfcA, PollFrame, false, [0x50, 0x00, 0x57, 0xCD], 0.0, 0.0), None) == "HALT"
    ensures FrameEvent(NfcFrame(NfcA, PollFrame, false, [0x50], 0.0, 0.0), None) == "HLTA"
  {
  }

  /** A technology A frame that is not a poll frame is labelled only when the
      frame before it exists and is a poll frame. */
  lemma NfcAAnswerNeedsPoll(frame: NfcFrame, prev: Option<NfcFrame>)
    requires frame.techType == NfcA && frame.IsListenFrame() && !HasPollBefore(prev)
    ensures Readable(frame, prev) && FrameEvent(frame, prev) == ""
  {
  }

  /** The technology A answer table is reached exactly when the answer has no
      ISO-DEP shape: ATQA after REQA or WUPA is never taken by SAK, UID or ATS,
      and an answer with a shape gets the overlay's label instead. */
  lemma {:induction false} NfcAAnswerTable(frame: NfcFrame, prev: Option<NfcFrame>)
    requires frame.techType == NfcA && frame.IsListenFrame() && PlainAnswerA(frame, prev)
    requires |prev.value.data| >= 1 && |frame.data| >= 1
    requires prev.value.data[0] as int in NfcAResp
    ensures Readable(frame, prev)
    ensures FrameEvent(frame, prev) == NfcAResp[prev.value.data[0] as int] <==> IsoDep(frame) == ""
    ensures IsoDep(frame) != "" ==> FrameEvent(frame, prev) == IsoDep(frame)
  {
  }

  /** No technology B table entry is ever hidden: the overlay shapes never take
      a command or answer code of the B tables. */
  lemma {:induction false} NfcBTablesReachable(frame: NfcFrame, prev: Option<NfcFrame>)
    requires frame.techType == NfcB && IsTraffic(frame) && |frame.data| >= 1
    ensures Readable(frame, prev)
    ensures var c := frame.data[0] as int;
      && (frame.IsPollFrame() && c in NfcBCmd ==> FrameEvent(frame, prev) == NfcBCmd[c])
      && (frame.IsListenFrame() && c in NfcBResp ==> FrameEvent(frame, prev) == NfcBResp[c])
  {
  }

  /** The ISO-DEP label of a technology A poll frame: once HALT and PPS do not
      apply, a frame with a block shape gets exactly the overlay's label. */
  lemma NfcAPollOverlay(frame: NfcFrame, prev: Option<NfcFrame>)
    requires frame.techType == NfcA && PlainPollA(frame) && |frame.data| >= 1
    requires var c, n := frame.data[0], |frame.data|;
      !(c == 0x50 && n == 4) && !((c & 0xF0) == 0xD0 && n == 5) && IsoDep(frame) != ""
    ensures Readable(frame, prev) && FrameEvent(frame, prev) == IsoDep(frame)
  {
  }

  /** A technology A answer after a poll whose command has no answer-table entry,
      and to which neither SAK, UID nor ATS applies, gets the overlay's label,
      which is empty when the answer has no block shape. */
  lemma NfcAAnswerOverlay(frame: NfcFrame, prev: Option<NfcFrame>)
    requires frame.techType == NfcA && frame.IsListenFrame() && PlainAnswerA(frame, prev)
    requires |prev.value.data| >= 1 && |frame.data| >= 1
    requires var p, n := prev.value.data[0], |frame.data|;
      && p as int !in NfcAResp
      && !(IsSelect(p) && (n == 3 || n == 5))
      && !(p == 0xE0 && frame.data[0] as int == n - 2)
    ensures Readable(frame, prev) && FrameEvent(frame, prev) == IsoDep(frame)
  {
  }

  /** Technology B traffic with a block shape gets exactly the overlay's label,
      and a frame is unlabelled exactly when it has no block shape and its code
      is not in the table for its direction. */
  lemma NfcBOverlay(frame: NfcFrame, prev: Option<NfcFrame>)
    requires frame.techType == NfcB && IsTraffic(frame) && |frame.data| >= 1
    ensures Readable(frame, prev)
    ensures IsoDep(frame) != "" ==> FrameEvent(frame, prev) == IsoDep(frame)
    ensures var c := frame.data[0] as int;
      FrameEvent(frame, prev) == ""
      <==> IsoDep(frame) == "" && c !in (if frame.IsPollFrame() then NfcBCmd else NfcBResp)
  {
  }

  /** Only technology A answers depend on the previous frame: for every other frame
      the label is the same whatever frame came before it. */
  lemma OnlyNfcAAnswersUsePrev(frame: NfcFrame, p: Option<NfcFrame>, q: Option<NfcFrame>)
    requires Readable(frame, p) && Readable(frame, q)
    requires !(frame.techType == NfcA && frame.IsListenFrame())
    ensures FrameEvent(frame, p) == FrameEvent(frame, q)
  {
  }

  /** "R-Block" is never a label: the R(ACK) and R(NACK) tests already take every
      frame the R-block test would accept, and no table names it. */
  lemma {:induction false} RBlockNeverProduced(frame: NfcFrame, prev: Option<NfcFrame>)
    requires Readable(frame, prev)
    ensures FrameEvent(frame, prev) != "R-Block"
  {
    if IsTraffic(frame) {
      match frame.techType
      case NfcA => RBlockNotNfcA(frame, prev);
      case NfcB => RBlockNotNfcB(frame, prev);
      case NfcF =>
        assert forall c :: c in NfcFCmd ==> NfcFCmd[c] != "R-Block";
        assert forall c :: c in NfcFResp ==> NfcFResp[c] != "R-Block";
      case NfcV =>
        assert forall c :: c in NfcVCmd ==> NfcVCmd[c] != "R-Block";
      case NoTech =>
    }
  }

  lemma RBlockNotNfcA(frame: NfcFrame, prev: Option<NfcFrame>)
    requires ReadableA(frame, prev)
    ensures EventNfcA(frame, prev) != "R-Block"
  {
    assert forall c :: c in NfcACmd ==> NfcACmd[c] != "R-Block";
    assert forall c :: c in NfcAResp ==> NfcAResp[c] != "R-Block";
  }

  lemma RBlockNotNfcB(frame: NfcFrame, prev: Option<NfcFrame>)
    requires IsTraffic(frame) ==> |frame.data| >= 1
    ensures EventNfcB(frame, prev) != "R-Block"
  {
    assert forall c :: c in NfcBCmd ==> NfcBCmd[c] != "R-Block";
    assert forall c :: c in NfcBResp ==> NfcBResp[c] != "R-Block";
  }

  /** Technology F and V poll frames, keyed on their second byte, always get a
      label: the table's name, or "CMD " and the byte in two hex digits. */
  lemma NfcFVPollNeverSilent(frame: NfcFrame, prev: Option<NfcFrame>)
    requires frame.techType == NfcF || frame.techType == NfcV
    requires frame.IsPollFrame() && |frame.data| >= 2
    ensures Readable(frame, prev)
    ensures var c := frame.data[1] as int;
      var table := if frame.techType == NfcF then NfcFCmd else NfcVCmd;
      FrameEvent(frame, prev) == (if c in table then table[c] else CmdLabel(frame.data[1]))
    ensures FrameEvent(frame, prev) != ""
  {
  }

  /** Technology F answers are looked up on the second byte; unknown ones are
      unlabelled. */
  lemma NfcFAnswer(frame: NfcFrame, prev: Option<NfcFrame>)
    requires frame.techType == NfcF && frame.IsListenFrame() && |frame.data| >= 2
    ensures Readable(frame, prev)
    ensures var c := frame.data[1] as int;
      FrameEvent(frame, prev) == (if c in NfcFResp then NfcFResp[c] else "")
  {
  }

  /** Technology V answers are never labelled. */
  lemma NfcVAnswerIsSilent(frame: NfcFrame, prev: Option<NfcFrame>)
    requires frame.techType == NfcV && frame.IsListenFrame()
    ensures Readable(frame, prev) && FrameEvent(frame, prev) == ""
  {
  }

  /** Every technology A label is one of the fixed technology A labels. */
  lemma NfcALabelsKnown(frame: NfcFrame, prev: Option<NfcFrame>)
    requires ReadableA(frame, prev)
    ensures EventNfcA(frame, prev) in NfcALabels
  {
    var r := EventNfcA(frame, prev);
    if !frame.encrypted && frame.IsPollFrame() {
      var c := frame.data[0] as int;
      assert c in NfcACmd ==> NfcACmd[c] in NfcACmd.Values;
    } else if !frame.encrypted && HasPollBefore(prev) {
      var c := prev.value.data[0] as int;
      assert c in NfcAResp ==> NfcAResp[c] in NfcAResp.Values;
    }
  }

  /** Every technology B label is one of the fixed technology B labels. */
  lemma NfcBLabelsKnown(frame: NfcFrame, prev: Option<NfcFrame>)
    requires IsTraffic(frame) ==> |frame.data| >= 1
    ensures EventNfcB(frame, prev) in NfcBLabels
  {
    if IsTraffic(frame) {
      var c := frame.data[0] as int;
      assert c in NfcBCmd ==> NfcBCmd[c] in NfcBCmd.Values;
      assert c in NfcBResp ==> NfcBResp[c] in NfcBResp.Values;
    }
  }

  /** Every technology F label comes from the technology F tables, is a
      "CMD xx" label, or is empty. */
  lemma NfcFLabelsKnown(frame: NfcFrame, prev: Option<NfcFrame>)
    requires |frame.data| >= 2
    ensures var r := EventNfcF(frame, prev);
      r == "" || r in NfcFCmd.Values || r in NfcFResp.Values || IsCmdLabel(r)
  {
    var c := frame.data[1] as int;
    assert c in NfcFCmd ==> NfcFCmd[c] in NfcFCmd.Values;
    assert c in NfcFResp ==> NfcFResp[c] in NfcFResp.Values;
  }

  /** Every technology V label comes from the command table, is a "CMD xx"
      label, or is empty. */
  lemma NfcVLabelsKnown(frame: NfcFrame, prev: Option<NfcFrame>)
    requires frame.IsPollFrame() ==> |frame.data| >= 2
    ensures var r := EventNfcV(frame, prev); r == "" || r in NfcVCmd.Values || IsCmdLabel(r)
  {
    if frame.IsPollFrame() {
      var c := frame.data[1] as int;
      assert c in NfcVCmd ==> NfcVCmd[c] in NfcVCmd.Values;
    }
  }

  /** The classifier is total over the frames it can read, and every label it
      produces is a fixed label or a synthesized "CMD xx" label. */
  lemma {:induction false} LabelsAreKnown(frame: NfcFrame, prev: Option<NfcFrame>)
    requires Readable(frame, prev)
    ensures var r := FrameEvent(frame, prev); r in FixedLabels || IsCmdLabel(r)
  {
    if IsTraffic(frame) {
      match frame.techType
      case NfcA => NfcALabelsKnown(frame, prev);
      case NfcB => NfcBLabelsKnown(frame, prev);
      case NfcF => NfcFLabelsKnown(frame, prev);
      case NfcV => NfcVLabelsKnown(frame, prev);
      case NoTech =>
    }
  }

  /** The UID answer of a cascade level 1 anticollision. */
  lemma ExchangeUid()
    ensures FrameEvent(NfcFrame(NfcA, ListenFrame, false, [0x08, 0x12, 0x34, 0x56, 0x78], 0.0, 0.0),
                       Some(NfcFrame(NfcA, PollFrame, false, [0x93], 0.0, 0.0))) == "UID"
  {
  }

  /** An ATS answering RATS: its first byte is its length minus two. */
  lemma ExchangeAts()
    ensures FrameEvent(NfcFrame(NfcA, ListenFrame, false, [0x02, 0x78, 0x80, 0x70], 0.0, 0.0),
                       Some(NfcFrame(NfcA, PollFrame, false, [0xE0, 0x50], 0.0, 0.0))) == "ATS"
  {
  }

  /** A deselect is recognised on either technology, ahead of their tables. */
  lemma ExchangeDeselect()
    ensures FrameEvent(NfcFrame(NfcA, PollFrame, false, [0xC2, 0xE0, 0xB4], 0.0, 0.0), None) == "S(Deselect)"
    ensures FrameEvent(NfcFrame(NfcB, PollFrame, false, [0xC2, 0xE0, 0xB4], 0.0, 0.0), None) == "S(Deselect)"
  {
  }

  /** REQC is keyed on the second byte; an unknown NFC-V command is rendered in hex. */
  lemma ExchangeSecondByte()
    ensures FrameEvent(NfcFrame(NfcF, PollFrame, false, [0xFF, 0x00], 0.0, 0.0), None) == "REQC"
    ensures FrameEvent(NfcFrame(NfcV, PollFrame, false, [0x26, 0xA0], 0.0, 0.0), None) == "CMD a0"
  {
  }

  /** WRITE is taken by R(ACK) at three bytes, and reached at its own length. */
  lemma ExchangeWriteVsAck()
    ensures FrameEvent(NfcFrame(NfcA, PollFrame, false, [0xA2, 0x04, 0x00], 0.0, 0.0), None) == "R(ACK)"
    ensures FrameEvent(NfcFrame(NfcA, PollFrame, false, [0xA2, 0x04, 0x01, 0x02, 0x03, 0x04, 0x00, 0x00], 0.0, 0.0), None) == "WRITE"
  {
  }
}
