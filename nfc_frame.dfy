/** The part of an `nfc::NfcFrame` that the stream model reads: its technology,
    its frame type, the encrypted flag, the payload bytes and its time span. */
module NfcFrames {

  /** One payload byte; `(*frame)[i]` is taken to yield an unsigned byte. */
  type Byte = bv8

  /** `nfc::TechType`; `NoTech` stands for any tag that is none of the four. */
  datatype TechType = NoTech | NfcA | NfcB | NfcF | NfcV

  /** The frame type: carrier transitions, or a poll (reader to tag) or listen
      (tag to reader) frame. The four are mutually exclusive. */
  datatype FrameType = CarrierOff | CarrierOn | PollFrame | ListenFrame

  datatype NfcFrame = NfcFrame(
    techType: TechType,
    frameType: FrameType,
    encrypted: bool,
    data: seq<Byte>,  // `limit()` is the length of this sequence
    timeStart: real,
    timeEnd: real)
  {
    predicate IsCarrierOn() { frameType == CarrierOn }

    predicate IsCarrierOff() { frameType == CarrierOff }

    predicate IsPollFrame() { frameType == PollFrame }

    predicate IsListenFrame() { frameType == ListenFrame }
  }
}
