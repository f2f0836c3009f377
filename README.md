# NFC frame table and Airspy receiver backend, in Dafny

This project models two parts of an NFC signal analyser and proves properties of them.

**The frame table of the capture view** (`StreamModel.cpp`) has two parts:

- **Frame stream buffer.** Decoded NFC frames are appended to a pending stream. They become visible table rows only when the view fetches them.
- **Event classifier.** Each row's "Event" column is a label derived from the frame and from the frame before it. The rules are:
  - carrier transitions give "RF-On" / "RF-Off";
  - technology A follows ISO/IEC 14443-3 Type A: HALT, the anticollision SAK/UID, and RATS/ATS/PPS from ISO/IEC 14443-4;
  - technology B follows ISO/IEC 14443-3 Type B;
  - technology A and B traffic also passes through an ISO/IEC 14443-4 block-shape overlay (I-, R- and S-blocks);
  - technology F (FeliCa) and V (ISO/IEC 15693-3) are classified by command tables;
  - an unknown F or V command is rendered as "CMD xx".

**The Airspy receiver backend** (`AirspyDevice.cpp`) covers:

- the lifecycle of a handle: open, start, stop and close;
- the stored configuration and its setters;
- the sample stream, which goes either to a registered handler or into a drop-oldest receive queue of capacity 4, read back in FIFO order;
- the received and dropped sample counters.

Files:

| file | module | contents |
|---|---|---|
| `wrappers.dfy` | `Wrappers` | `Option` |
| `nfc_frame.dfy` | `NfcFrames` | the frame record: technology, frame type, encrypted flag, payload bytes (`bv8`), start and end time |
| `frame_event.dfy` | `FrameEvents` | the code tables, the ISO-DEP overlay, the four per-technology classifiers, `FrameEvent`, `FrameTech` |
| `frame_event_properties.dfy` | `FrameEventProperties` | lemmas: test priority, silent frames, unreachable labels, label domain, worked exchanges |
| `stream_model.dfy` | `StreamModels` | class `StreamModel`: the visible `frames` and the pending `stream` |
| `stream_queue.dfy` | `StreamQueue` | the signal buffer record and the drop-oldest queue step `Offer`, with its fold `OfferAll` |
| `airspy_device.dfy` | `Airspy` | class `AirspyDevice`: its fields, lifecycle, setters, `Read` and `ProcessTransfer` |

Modelling choices:

- **libairspy calls.** They are calls into the external libairspy library, so the result of each call is a parameter of the method that makes it. The methods that take such results are `Open`, `Close`, `Start`, `Stop` and the setters (`hwResult`).
- **Handle and handler.** The handle and the stream handler are booleans: is a handle held, is a handler registered.
- **The clock.** The clock read by `start` is the parameter `now`.
- **Open's configuration push.** `open` re-sends the stored configuration. This is one parameter, `configResult`: the result of the last of those pushes.
- **Transfers.** `process_transfer` gets its transfer as the already-built `SignalBuffer`, plus the transfer's sample count and dropped-sample count.
- **Payload reads.** `NfcFrame::operator[]` is not part of this model. The classifier's precondition `FrameEvents.Readable` therefore admits exactly the frames whose payload bytes the code reads:
  - byte 0 for technology A and B;
  - byte 1 for technology F, and for technology V poll frames;
  - byte 0 of the previous poll frame on the technology A answer path.

Behaviour of the code worth knowing; the model follows the code:

- **Hex case.** The "CMD %1" label uses `QString::arg(c, 2, 16, '0')`, and Qt renders those digits in lower case: command 0xA0 is "CMD a0" (`FrameEvents.Hex2`).
- **Label dispatch.** Carrier frames are labelled before the technology dispatch, whatever their technology. A poll or listen frame of technology A, B, F or V reaches that technology's classifier; one of any other technology gets the empty label.
- **Stop and close.** `stop` acts only when a handler is registered, and `close` stops through `stop`. For a stream started with an empty handler, which feeds the receive queue, neither `stop` nor `close` calls `airspy_stop_rx`, and its queue and `streamTime` survive a `close`. What `airspy_close` then does to the running reception is up to the library. `Airspy.AirspyDevice.Close` states this case as it is.
- **Failed start.** `start` sets `streamTime` even when `airspy_start_rx` fails.
- **Read.** `read` takes from the queue whether or not a handler is registered.
- **Open after close.** `close` empties `deviceName`, and `open` calls `close` before it takes `deviceName.substr(9)`. An open of a device that holds a handle therefore takes `substr(9)` of an empty name, which throws `std::out_of_range`, after the old handle is already closed. So does every open of a device created from a file descriptor, whose name is empty. Parsing is not part of this model (see below).

## Model

| member | source | states |
|---|---|---|
| FrameEvents.IsoDep | src/nfc-app/app-qt/src/main/cpp/model/StreamModel.cpp:389-422 | The first-match test order amounts to this: each of Deselect, WTX, ACK, NACK and I-Block is the label exactly when its own mask and length test holds. "S-Block" is the label exactly for S-block shapes that are neither a deselect nor a WTX. The label is empty exactly when no shape matches. "R-Block" is never the label. Any label implies at least 3 payload bytes. |
| FrameEvents.Hex2 | src/nfc-app/app-qt/src/main/cpp/model/StreamModel.cpp:363 | Exactly two characters, both lower-case hex digits, zero padded, whose value is the byte. |
| FrameEvents.CmdLabel | src/nfc-app/app-qt/src/main/cpp/model/StreamModel.cpp:383 | A "CMD xx" label: "CMD " followed by two lower-case hex digits, which read back as the command byte. |
| FrameEvents.CmdLabelOfCmdValue | src/nfc-app/app-qt/src/main/cpp/model/StreamModel.cpp:383 | The other direction of the round trip: every "CMD xx" label is the label of the byte it names. So labels and bytes determine each other. |
| FrameEvents.EventNfcA | src/nfc-app/app-qt/src/main/cpp/model/StreamModel.cpp:274-324 | On a plain (unencrypted) poll frame, "HALT" is the label exactly for 0x50 at four bytes and "PPS" exactly for 0xD_ at five bytes; SAK, UID and ATS never occur. On a plain answer after a poll frame, "SAK" is the label exactly after a select (0x93/0x95/0x97) at three bytes and "UID" exactly at five. "ATS" is the label exactly after 0xE0 when the first byte is the length minus 2, and HALT and PPS never occur. Every other frame gets the empty label. |
| FrameEvents.EventNfcB | src/nfc-app/app-qt/src/main/cpp/model/StreamModel.cpp:326-352 | Carrier frames are unlabelled. A poll or listen frame gets an ISO-DEP label exactly when it has an ISO-DEP shape, so no B table name is ever mistaken for an overlay label. |
| FrameEvents.EventNfcF | src/nfc-app/app-qt/src/main/cpp/model/StreamModel.cpp:354-372 | A technology F poll frame is always labelled; a carrier frame never is. |
| FrameEvents.EventNfcV | src/nfc-app/app-qt/src/main/cpp/model/StreamModel.cpp:374-387 | A technology V frame is labelled if and only if it is a poll frame. |
| FrameEvents.FrameEvent | src/nfc-app/app-qt/src/main/cpp/model/StreamModel.cpp:203-231 | Carrier-on gives "RF-On" and carrier-off gives "RF-Off", whatever the technology and payload. |
| FrameEvents.FrameTech | src/nfc-app/app-qt/src/main/cpp/model/StreamModel.cpp:186-201 | The technology name is empty exactly for an unknown technology, and the name determines the technology (`TechOfName` inverts it). |
| FrameEventProperties.EncryptedNfcAIsSilent | src/nfc-app/app-qt/src/main/cpp/model/StreamModel.cpp:279-280 | Encrypted technology A traffic is readable and gets the empty label, whatever its bytes. |
| FrameEventProperties.UnknownTechIsSilent | src/nfc-app/app-qt/src/main/cpp/model/StreamModel.cpp:211-230 | Traffic of any technology other than A, B, F and V gets the empty label. |
| FrameEventProperties.NfcACommandShadowing | src/nfc-app/app-qt/src/main/cpp/model/StreamModel.cpp:282-298 | Which technology A table entries are reachable. A plain poll frame whose command is in the table gets the table name exactly when no earlier test takes it. The earlier tests take 0x50 at four bytes (HALT), AUTH and PWD_AUTH from four bytes on (I-Block), and WRITE at three bytes (R(ACK)). |
| FrameEventProperties.NfcAPollSilent | src/nfc-app/app-qt/src/main/cpp/model/StreamModel.cpp:282-298 | A plain technology A poll frame is unlabelled exactly when its command is outside the table, it is not a PPS, and it has no ISO-DEP shape. |
| FrameEventProperties.HaltBeforeTable | src/nfc-app/app-qt/src/main/cpp/model/StreamModel.cpp:287-298 | A four-byte 0x50 poll frame is "HALT"; a one-byte 0x50 falls through to the table's "HLTA". |
| FrameEventProperties.NfcAAnswerNeedsPoll | src/nfc-app/app-qt/src/main/cpp/model/StreamModel.cpp:300-323 | A technology A answer is unlabelled unless the frame before it exists and is a poll frame. |
| FrameEventProperties.NfcAAnswerTable | src/nfc-app/app-qt/src/main/cpp/model/StreamModel.cpp:300-323 | After a poll whose first byte is in the answer table (REQA, WUPA), the answer gets the table's ATQA exactly when it has no ISO-DEP shape; SAK, UID and ATS never take it. An answer with an ISO-DEP shape gets exactly the overlay's label (for example, I-Block). |
| FrameEventProperties.NfcAPollOverlay | src/nfc-app/app-qt/src/main/cpp/model/StreamModel.cpp:294-295 | A plain technology A poll frame that is neither HALT nor PPS and has a block shape gets exactly the ISO-DEP overlay's label. |
| FrameEventProperties.NfcAAnswerOverlay | src/nfc-app/app-qt/src/main/cpp/model/StreamModel.cpp:316-323 | Take a technology A answer after a poll whose command has no answer-table entry, where neither SAK, UID nor ATS applies. It gets exactly the overlay's label, which is empty when the answer has no block shape. |
| FrameEventProperties.NfcBOverlay | src/nfc-app/app-qt/src/main/cpp/model/StreamModel.cpp:326-352 | Technology B traffic with a block shape gets exactly the overlay's label. A B frame is unlabelled exactly when it has no block shape and its code is not in the table for its direction. |
| FrameEventProperties.NfcBTablesReachable | src/nfc-app/app-qt/src/main/cpp/model/StreamModel.cpp:326-352 | No technology B table entry is hidden by the overlay that is checked before it. A poll frame with a B command code always gets the command's name, and a listen frame with a B answer code the answer's name. |
| FrameEventProperties.OnlyNfcAAnswersUsePrev | src/nfc-app/app-qt/src/main/cpp/model/StreamModel.cpp:203-231 | Technology A answers are the only frames whose label depends on the previous frame: for every other frame, any two predecessors give the same label. |
| FrameEventProperties.RBlockNeverProduced | src/nfc-app/app-qt/src/main/cpp/model/StreamModel.cpp:414-415 | "R-Block" is never the label of any readable frame, with any predecessor. |
| FrameEventProperties.RBlockNotNfcA | src/nfc-app/app-qt/src/main/cpp/model/StreamModel.cpp:274-324 | The technology A classifier never yields "R-Block". |
| FrameEventProperties.RBlockNotNfcB | src/nfc-app/app-qt/src/main/cpp/model/StreamModel.cpp:326-352 | The technology B classifier never yields "R-Block". |
| FrameEventProperties.NfcFVPollNeverSilent | src/nfc-app/app-qt/src/main/cpp/model/StreamModel.cpp:354-387 | Technology F and V poll frames are keyed on payload byte 1. They get the table's name, or else "CMD " plus the byte in hex, and never the empty label. |
| FrameEventProperties.NfcFAnswer | src/nfc-app/app-qt/src/main/cpp/model/StreamModel.cpp:365-369 | A technology F answer gets the answer table's name for byte 1, or else the empty label. |
| FrameEventProperties.NfcVAnswerIsSilent | src/nfc-app/app-qt/src/main/cpp/model/StreamModel.cpp:374-387 | Technology V listen frames always get the empty label. |
| FrameEventProperties.NfcALabelsKnown | src/nfc-app/app-qt/src/main/cpp/model/StreamModel.cpp:274-324 | Every technology A label is a fixed A label, an overlay label or a value of the A tables. |
| FrameEventProperties.NfcBLabelsKnown | src/nfc-app/app-qt/src/main/cpp/model/StreamModel.cpp:326-352 | Every technology B label is empty, an overlay label or a value of the B tables. |
| FrameEventProperties.NfcFLabelsKnown | src/nfc-app/app-qt/src/main/cpp/model/StreamModel.cpp:354-372 | Every technology F label is empty, a value of the F tables or a "CMD xx" label. |
| FrameEventProperties.NfcVLabelsKnown | src/nfc-app/app-qt/src/main/cpp/model/StreamModel.cpp:374-387 | Every technology V label is empty, a value of the V table or a "CMD xx" label. |
| FrameEventProperties.LabelsAreKnown | src/nfc-app/app-qt/src/main/cpp/model/StreamModel.cpp:203-231 | Every readable frame gets a label, and that label is either a fixed label or a "CMD xx" label. |
| FrameEventProperties.ExchangeUid | src/nfc-app/app-qt/src/main/cpp/model/StreamModel.cpp:304-310 | A five-byte answer to a SEL1 poll is "UID". |
| FrameEventProperties.ExchangeAts | src/nfc-app/app-qt/src/main/cpp/model/StreamModel.cpp:313-314 | A four-byte answer to RATS starting with 0x02 is "ATS". |
| FrameEventProperties.ExchangeDeselect | src/nfc-app/app-qt/src/main/cpp/model/StreamModel.cpp:389-396 | The three-byte block C2 E0 B4 is "S(Deselect)" on technology A and on technology B. |
| FrameEventProperties.ExchangeSecondByte | src/nfc-app/app-qt/src/main/cpp/model/StreamModel.cpp:354-387 | The F poll FF 00 is "REQC". The V poll 26 A0 is "CMD a0". |
| FrameEventProperties.ExchangeWriteVsAck | src/nfc-app/app-qt/src/main/cpp/model/StreamModel.cpp:294-298 | A three-byte frame A2 04 00 is "R(ACK)", because the overlay takes it before the table. An eight-byte WRITE frame starting with A2 is "WRITE". |
| StreamModels.PreviousFrame | src/nfc-app/app-qt/src/main/cpp/model/StreamModel.cpp:444-449 | A row has a previous frame exactly when it is not the first row, and that frame is the row before it. |
| StreamModels.StreamModel.constructor | src/nfc-app/app-qt/src/main/cpp/model/StreamModel.cpp:425-427 | A new table has no visible rows and no pending frames. |
| StreamModels.StreamModel.RowCount | src/nfc-app/app-qt/src/main/cpp/model/StreamModel.cpp:429-432 | The number of visible rows; pending frames are not counted. |
| StreamModels.StreamModel.CanFetchMore | src/nfc-app/app-qt/src/main/cpp/model/StreamModel.cpp:562-567 | True exactly when frames are pending. |
| StreamModels.StreamModel.Append | src/nfc-app/app-qt/src/main/cpp/model/StreamModel.cpp:610-615 | The frame goes to the back of the pending stream; the visible rows are unchanged. |
| StreamModels.StreamModel.FetchMore | src/nfc-app/app-qt/src/main/cpp/model/StreamModel.cpp:569-581 | The visible rows become the old rows followed by all pending frames in FIFO order, and the pending stream becomes empty. |
| StreamModels.StreamModel.ResetModel | src/nfc-app/app-qt/src/main/cpp/model/StreamModel.cpp:583-591 | The visible rows are cleared; the pending stream is untouched. |
| StreamModels.StreamModel.ModelRange | src/nfc-app/app-qt/src/main/cpp/model/StreamModel.cpp:593-608 | The result is exactly the rows whose frame starts at or after `from` and ends at or before `to`, with none missing, in strictly increasing order. When every frame is in the window, the result is every row in order. |
| StreamModels.StreamModel.EventAt | src/nfc-app/app-qt/src/main/cpp/model/StreamModel.cpp:439-471 | No value for a row outside the table. Otherwise the value is the row's frame classified against the previous row's frame (none for row 0). |
| StreamQueue.Offer | src/nfc-lib/lib-sdr/sdr-io/src/main/cpp/AirspyDevice.cpp:735-746 | The oldest buffer is evicted exactly when the queue already holds 4 or more. The new queue is the old queue plus the new buffer at the back, minus what was evicted. The dropped count is the evicted buffers' elements. A queue within capacity stays within capacity. |
| StreamQueue.OfferAllKeepsNewest | src/nfc-lib/lib-sdr/sdr-io/src/main/cpp/AirspyDevice.cpp:735-746 | Offer a run of transfers to a queue within capacity; `all` is the old queue followed by the offered buffers. The queue ends as the newest `min(|all|, 4)` buffers of `all`, in order. Exactly the older ones are evicted, and the dropped count is the sum of their elements. |
| StreamQueue.OverflowFromEmpty | src/nfc-lib/lib-sdr/sdr-io/src/main/cpp/AirspyDevice.cpp:735-746 | Offer more than 4 transfers to an empty queue: the queue keeps the last 4, and every earlier buffer's elements are counted as dropped. |
| StreamQueue.SumElementsConcat | src/nfc-lib/lib-sdr/sdr-io/src/main/cpp/AirspyDevice.cpp:738 | The elements dropped from two runs of buffers add up. |
| Airspy.Contains | src/nfc-lib/lib-sdr/sdr-io/src/main/cpp/AirspyDevice.cpp:113 | `find(pattern) != npos`: true if and only if the pattern occurs at some position of the string. |
| Airspy.ForeignScheme | src/nfc-lib/lib-sdr/sdr-io/src/main/cpp/AirspyDevice.cpp:113 | A name is refused exactly when "://" occurs in it somewhere and "airspy://" occurs nowhere. |
| Airspy.SchemeExamples | src/nfc-lib/lib-sdr/sdr-io/src/main/cpp/AirspyDevice.cpp:113-117 | "airspy://35ac63dc2d8c6a4f" and the empty name pass the name check; "rtlsdr://0" is refused. |
| Airspy.Decimal | src/nfc-lib/lib-sdr/sdr-io/src/main/cpp/AirspyDevice.cpp:458 | At least one character, all of them decimal digits. There is no leading zero, and 0 is the single digit "0". With `DecimalRoundTrip`, this fixes the string for every number. |
| Airspy.DecimalRoundTrip | src/nfc-lib/lib-sdr/sdr-io/src/main/cpp/AirspyDevice.cpp:458 | Reading the digits back gives the number. |
| Airspy.AirspyDevice.constructor | src/nfc-lib/lib-sdr/sdr-io/src/main/cpp/AirspyDevice.cpp:47-75 | A device for a name is created closed: no handle, no handler, an empty queue, and zero configuration and counters. |
| Airspy.AirspyDevice.FromFileDesc | src/nfc-lib/lib-sdr/sdr-io/src/main/cpp/AirspyDevice.cpp:77-80 | A device for a file descriptor is created closed with an empty name. |
| Airspy.AirspyDevice.Open | src/nfc-lib/lib-sdr/sdr-io/src/main/cpp/AirspyDevice.cpp:109-188 | A name of another scheme gives false with nothing changed, and the current handle is kept. Otherwise the current handle is closed first. A handle is held, and true is returned, exactly when `airspy_open_sn` succeeds. On success the firmware version is stored; on failure the open error stays as the last result. |
| Airspy.AirspyDevice.Close | src/nfc-lib/lib-sdr/sdr-io/src/main/cpp/AirspyDevice.cpp:190-207 | Nothing changes without a handle. With one, the handle ends released with no handler, the name and version are empty, and the last result is that of `airspy_close`. The queue is cleared only if a handler was registered. |
| Airspy.AirspyDevice.Start | src/nfc-lib/lib-sdr/sdr-io/src/main/cpp/AirspyDevice.cpp:209-238 | Without a handle it returns -1 and changes nothing. With one, the counters and the queue are reset and the session time is set, and it returns the `airspy_start_rx` result. A handler stays registered exactly when one was given and the start succeeded. |
| Airspy.AirspyDevice.Stop | src/nfc-lib/lib-sdr/sdr-io/src/main/cpp/AirspyDevice.cpp:240-259 | It returns -1 and changes nothing unless a handle is held and a handler registered. Otherwise the handler and the queue are cleared, `streamTime` is 0, and it returns the `airspy_stop_rx` result. |
| Airspy.AirspyDevice.SetCenterFreq | src/nfc-lib/lib-sdr/sdr-io/src/main/cpp/AirspyDevice.cpp:283-296 | The value is stored unconditionally. It returns the hardware result with a handle and 0 without one. |
| Airspy.AirspyDevice.SetSampleRate | src/nfc-lib/lib-sdr/sdr-io/src/main/cpp/AirspyDevice.cpp:298-311 | The value is stored unconditionally. It returns the hardware result with a handle and 0 without one. |
| Airspy.AirspyDevice.SetGainMode | src/nfc-lib/lib-sdr/sdr-io/src/main/cpp/AirspyDevice.cpp:313-336 | The mode is stored and the gain value kept. With a handle, Auto pushes the AGCs, and Linearity and Sensitivity push the gain again; either way it returns the push's result. Any other mode returns the previous result. Without a handle it returns 0. |
| Airspy.AirspyDevice.SetGainValue | src/nfc-lib/lib-sdr/sdr-io/src/main/cpp/AirspyDevice.cpp:338-359 | The value is stored unconditionally. With a handle it is pushed only in the Linearity or Sensitivity mode; in any other mode the previous result is returned unchanged. Without a handle it returns 0. |
| Airspy.AirspyDevice.SetTunerAgc | src/nfc-lib/lib-sdr/sdr-io/src/main/cpp/AirspyDevice.cpp:361-377 | The value is stored, and a non-zero value also selects Auto. It returns the hardware result with a handle and 0 without one. |
| Airspy.AirspyDevice.SetMixerAgc | src/nfc-lib/lib-sdr/sdr-io/src/main/cpp/AirspyDevice.cpp:379-395 | The value is stored, and a non-zero value also selects Auto. It returns the hardware result with a handle and 0 without one. |
| Airspy.AirspyDevice.SetDecimation | src/nfc-lib/lib-sdr/sdr-io/src/main/cpp/AirspyDevice.cpp:397-402 | The value is stored, and it always returns 0. |
| Airspy.AirspyDevice.SetTestMode | src/nfc-lib/lib-sdr/sdr-io/src/main/cpp/AirspyDevice.cpp:404-409 | It always returns -1 and changes nothing. |
| Airspy.AirspyDevice.SupportedGainModes | src/nfc-lib/lib-sdr/sdr-io/src/main/cpp/AirspyDevice.cpp:439-448 | Exactly the three modes Auto, Linearity and Sensitivity, each under its name. |
| Airspy.AirspyDevice.SupportedGainValues | src/nfc-lib/lib-sdr/sdr-io/src/main/cpp/AirspyDevice.cpp:450-464 | Exactly the keys 0 to 21, each named by its decimal value followed by " db". |
| Airspy.AirspyDevice.Read | src/nfc-lib/lib-sdr/sdr-io/src/main/cpp/AirspyDevice.cpp:466-481 | On a non-empty queue it returns the oldest buffer and that buffer's limit, and removes exactly that buffer. On an empty queue it returns -1 and leaves the queue unchanged. |
| Airspy.AirspyDevice.Write | src/nfc-lib/lib-sdr/sdr-io/src/main/cpp/AirspyDevice.cpp:483-488 | It always returns -1 and changes nothing. |
| Airspy.AirspyDevice.ProcessTransfer | src/nfc-lib/lib-sdr/sdr-io/src/main/cpp/AirspyDevice.cpp:704-758 | The sample count is added to the received counter and the hardware-dropped count to the dropped counter on both paths. With a handler, the buffer is forwarded and the queue untouched. Without one, the queue takes the `Offer` step and its evicted elements are also counted as dropped. The queue never exceeds 4, and the transfer always continues (0). |

## Left out

- `listDevices` and `supportedSampleRates`: they only format what libairspy reports.
- `isOpen`, `isEof`, `isReady` and `isStreaming`: they are direct questions to libairspy or to the handle.
- The serial-number parse in `open` and the `#ifdef ANDROID` open branch. The parse is `std::stoull(deviceName.substr(9), nullptr, 16)`: `substr` throws `std::out_of_range` for a name shorter than 9 characters, and `stoull` throws when no hex number follows. Both are library calls. The branch refers to names that do not exist in this file.
- Airspy.AirspyDevice.Open: on a device that held a handle, or one created from a file descriptor, the name is empty at the parse, so the source throws there, after the old handle is closed. The model lets `openResult` decide instead, so its `ok` outcome for a device that held a handle, and for an empty name, cannot happen in the source.
- Airspy.AirspyDevice.Open: the individual results of the version read, the bias-tee, board-serial and sample-type calls, and the four configuration pushes are folded into `configResult`, the result of the last push. The version string is a parameter.
- The `SignalBuffer` layout built in `process_transfer` (REAL versus IQ, sample pointers, sample rate, offset) is left out: the buffer is opaque here apart from `elements` and `limit`. The null-context guard that returns -1 is left out too: a method on the device always has its device.
- Airspy.AirspyDevice.SetCenterFreq: the `long` argument is stored into an `int` field in the code; the model keeps unbounded integers and does not model that narrowing.
- Airspy.AirspyDevice.SetSampleRate: the same `long` to `int` narrowing is not modelled.
- Airspy.AirspyDevice.ProcessTransfer: the `long` counters are unbounded integers, so overflow is not modelled.
- Airspy.AirspyDevice.Start: the stream handler itself is not modelled, only whether it is empty. The session time is the parameter `now`, and the system clock is not part of this model.
- Locks: `std::mutex`, `QReadWriteLock`, the read lock held by `fetchMore` while it mutates, and any concurrency between the receive callback and the reader. Each operation is modelled as atomic.
- Logging, and the Qt model/view plumbing. That covers `beginInsertRows` and friends, fonts, colours, alignment, `headerData`, `flags`, `index`, internal pointers, `frame`, `setTimeFormat` and `columnCount`.
- The other columns of `data()`: `frameTime`, `frameDelta`, `frameRate`, `frameFlags` and `frameData`. They are floating-point, date and hex formatting; only the event and technology columns and the previous-frame choice are modelled.
- `NfcFrame` is a minimal record. Its rate, flags and error bits are not part of this model, and neither is `NfcFrame::operator[]` on an index past the payload. The classifier requires the bytes it reads (`FrameEvents.Readable`).
- `QtWindow.cpp` is not part of this model: it is user-interface wiring.
- `MiriDevice.cpp` is not part of this model: every member is a constant stub.
- Airspy.AirspyDevice.SetGainMode: the gain-mode numbers are taken as Auto = 0, Linearity = 1, Sensitivity = 2, because the header that declares them is not part of this model.
- `NfcFrame::operator[]` is assumed to yield an unsigned byte (0 to 255), which is why payload bytes are `bv8`. The header that declares it is not part of this model. If it yielded a signed `char`, the comparisons with 0x93, 0x95, 0x97 and 0xE0 (`StreamModel.cpp` lines 284, 297, 304 and 313) and every table key of 0x80 or more would never match, and the model would not describe that program.
