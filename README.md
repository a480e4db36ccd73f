# DPScope driver core, modelled in Dafny

This project models the device-facing logic of the DPScope oscilloscope driver
(RogerDevil/DPScope, Python) and proves properties of that model. The model
covers:

- The serial wire protocol. One command exchange happens in this order: the
  argument-count check, the UTF-8 encoded opcode, the arguments packed
  big-endian, the optional echo, the fixed-size payload, the optional second
  echo, and a final check that no unread bytes remain. The model also covers
  the readback exchange, the Set DAC bit packing, and the command table of
  `DPScopeInterface`. All of this appears twice in the source: in
  `model/command.py` and in the older `low.py`.
- The gain and pregain code/value tables.
- The USB-reference calibration and the conversion of ADC counts to volts
  (`VoltageCalc`, `VoltageSingleRead`, `VoltageStreamer`).
- The trigger, acquisition-rate and gain-option settings.
- The block-capture pollers.
- The periodic scheduler of `concurrent.py` and the rolling-window rate timer
  of `common/timer.py`.

How the pieces are modelled:

- **The serial port.** `SerialLink.Link` stands in for pyserial. It is a class
  holding the bytes written and the queue of bytes the device will send. A
  read takes at most what is pending, which models the one-second timeout.
- **One exchange.** `Command.Transaction` is a function of the pending input.
  It gives the result, the bytes written and the number of bytes consumed.
  The methods that drive the link (`Command.Send` and the steps below it) are
  proved to agree with it.
- **A closed port.** Calls through `Interface.DPScopeInterface` on a closed
  port raise SerialException at the first `write`, after the argument-count
  and opcode checks (`Command.ClosedTransaction`, `Command.ClosedReadback`).
- **The two error styles.** Both copies of the exchange are one function with
  a `Style` parameter. The newer classes raise exceptions; the `_cmd` factory
  of `low.py` uses `assert`.
- **`struct` formats.** A format is a list of fields (`B`, `H`, `Ns`), packed
  in network byte order.
- **Opcodes.** Opcodes and readback counts pass through `bytes(chr(n), "utf-8")`.
  Readback replies pass through `.decode("utf-8")`. Both are modelled by the
  UTF-8 transformation of section 3 of RFC 3629.
- **The controller helpers.** They talk to `Scope.FakeScope`, a recording
  stand-in for `DPScopeInterface`:
  - it logs every request that reaches the device;
  - it fails the opcodes it is told to fail with CommsException;
  - it answers value-returning commands from a table, and readbacks from a
    script.

  Each helper operation is a step function from the helper's fields and the
  fake to a result, the new fields and the commands issued. The helper's class
  methods are proved against those step functions.
- **Time.** Clock readings are parameters. The scheduler's worker thread is
  its loop state, driven by a sequence of readings. The timer's worker process
  is one `Step` per loop iteration.
- **Arithmetic.** Voltages and times are `real`, an idealisation of Python
  floats.

Python behaviours that the model follows as written:

- **Empty echo.** An echo read that returns nothing makes `_ack` format
  `ord(b'')` into its message. That raises TypeError rather than
  CommsException (`Command.AckCheck`).
- **Wide opcodes.** An opcode of 128 or more is two bytes on the wire, so its
  one-byte echo never matches.
- **The count check counts bytes.** `struct.calcsize` gives the byte size of
  the format, so an `"H"` command asks for two arguments. The comparison
  there is with one argument per field.
- **`arm_fft()`.** The frequency poller calls `arm_fft()` with no arguments.
  Its `"BB"` format makes the count check refuse the call before anything is
  written.
- **Shared `pre_gain` opcode.** In the `low.py` table, `pre_gain` is created
  with opcode 41, the opcode of `trig_level`.

## Model

| member | source | states |
|---|---|---|
| Utf8.EncodeChr | dpscope/model/command.py:63-69 | `bytes(chr(n), "utf-8")` succeeds exactly for Unicode scalar values. It raises ValueError outside 0..0x10FFFF and UnicodeEncodeError on a surrogate. It gives 1 to 4 bytes, one byte exactly below 128, and that byte is `n` itself. |
| Utf8.EncodeText | dpscope/model/command.py:185 | `bytes(chr(cmd) + chr(nob), "utf-8")` succeeds exactly when every value is a scalar, and then gives the concatenated encodings. |
| Utf8.DecodeFirst | dpscope/model/command.py:190 | The strict decoder's first character is a scalar value of 1 to 4 bytes within the input. |
| Utf8.DecodeConcat | dpscope/model/command.py:185-190 | Decoding the encoding of any sequence of scalar values gives that sequence back. |
| Utf8.Decode | dpscope/model/command.py:190 | `.decode("utf-8")` returns the code points, or None where the strict decoder raises. `DecodeConcat` and `DecodeEncodes` state its properties. |
| Utf8.DecodeFirstEncodes | dpscope/model/command.py:190 | The character the decoder reads off the front re-encodes to exactly the bytes it consumed, so only shortest forms are accepted. |
| Utf8.DecodeEncodes | dpscope/model/command.py:190 | Whatever the decoder accepts is the concatenated encoding of the scalar values it returns. With `DecodeConcat`, decoding `s` gives `cs` exactly when `s` encodes `cs`. |
| Utf8.DecodeAscii | dpscope/model/command.py:190 | Bytes below 0x80 decode to themselves. |
| Utf8.HighByteAlone | dpscope/model/command.py:190 | A lone byte of 0x80 or more makes the decoder raise. |
| Utf8.Chr205 | dpscope/model/controller/helper/poll.py:54 | The poller's count 205 is the two bytes 0xC3 0x8D on the wire. |
| Wire.PackField | dpscope/model/command.py:134 | Packing one field gives exactly the field's width in bytes. |
| Wire.Pack | dpscope/model/command.py:134 | `struct.pack` succeeds exactly when there is one fitting value per field, raises struct.error otherwise, and gives `calcsize` bytes. |
| Wire.UnpackField | dpscope/model/command.py:142-143 | Unpacking one field yields a value of that field's kind and width. |
| Wire.Unpack | dpscope/model/command.py:141-143 | `struct.unpack` succeeds exactly when the input has `calcsize(ret)` bytes, raises struct.error otherwise, and yields one exact value per field. |
| Wire.Fields | dpscope/model/command.py:142-143 | The fields of a reply of the right size, each of its format's kind. |
| Wire.UnpackPack | dpscope/model/command.py:134-143 | Unpacking what was packed gives the values back. |
| Wire.PackUnpack | dpscope/model/command.py:134-143 | Packing what was unpacked gives the bytes back. |
| Wire.BigEndianH | dpscope/model/command.py:54 | With the `"!"` prefix an `H` value is sent high byte first, and unpacks back. |
| Wire.PackBB | dpscope/model/command.py:134 | `"!B"` and `"!BB"` send their bytes unchanged. |
| Wire.PackHH | dpscope/model/command.py:141-143 | `"!HH"` carries each word high byte first. |
| Wire.SizeVersusFields | dpscope/model/command.py:125-126 | Only `H` and `s` formats have fewer fields than bytes: `calcsize("!H")` is 2 for one field. |
| Command.AckCheck | dpscope/model/command.py:95-109 | In the raising style the check passes exactly when the byte read is the encoded opcode. An empty read raises TypeError in both styles. |
| Command.Transaction | dpscope/model/command.py:111-151 | A count mismatch raises CommandException (AssertionError in the `low.py` style) with nothing written and nothing read. Otherwise the exchange is `Perform`. |
| Command.Perform | dpscope/model/command.py:131-151 | On success the bytes written are the opcode followed by the packed arguments. All pending input is consumed and the values match the reply format. A packing failure raises struct.error after the opcode is written. |
| Command.Receive | dpscope/model/command.py:136-151 | The reading half writes nothing. On success it consumed all pending input and holds one value per reply field. |
| Command.ReadPayload | dpscope/model/command.py:140-151 | The payload read writes nothing and consumes from position `p` on. On success it leaves nothing pending. |
| Command.Conclude | dpscope/model/command.py:144-149 | After the payload, success means the second echo (if any) was read, nothing is left, and the unpacked values are returned. |
| Command.Echo | dpscope/model/command.py:95-109 | Reads one byte and returns the echo check on it. |
| Command.Send | dpscope/model/command.py:111-151 | Driving the link gives the result of `Transaction`. The output grows by its written bytes and its consumed bytes leave the input. |
| Command.PerformOn | dpscope/model/command.py:131-151 | The same, for `Perform`. |
| Command.Await | dpscope/model/command.py:136-151 | The same, for `Receive`; nothing is written. |
| Command.PayloadOn | dpscope/model/command.py:140-151 | The same, for `ReadPayload`. |
| Command.DecodeOn | dpscope/model/command.py:141-149 | Unpacking the payload read, then finishing, gives `ReadPayload`'s result. |
| Command.FinishOn | dpscope/model/command.py:144-151 | The second echo and the pending check give `Conclude`'s result. |
| Command.ReplyAccepted | dpscope/model/command.py:136-151 | A well-behaved device's reply is accepted with its payload, and any extra bytes raise the trailing-bytes error. |
| Command.PayloadAccepted | dpscope/model/command.py:140-151 | A packed payload and the correct second echo are accepted up to any extra bytes. |
| Command.EchoAccepted | dpscope/model/command.py:144-149 | A correct second echo followed by `extra` succeeds exactly when `extra` is empty. |
| Command.ConcludeAccepted | dpscope/model/command.py:144-149 | A successful conclusion saw exactly the second echo, if any. |
| Command.ReadPayloadAccepted | dpscope/model/command.py:140-149 | A successful payload read saw `calcsize(ret)` bytes that unpack to the result, then exactly the second echo. |
| Command.ReceiveAccepted | dpscope/model/command.py:136-143 | A successful reading half saw exactly the echo first, if `ack` is set. |
| Command.AcceptedIsReply | dpscope/model/command.py:136-151 | Any accepted input is exactly the reply a well-behaved device sends for the returned values. |
| Command.ReplyRoundTrip | dpscope/model/command.py:111-151 | For a request that passes the count check and packs: the exchange returns `vs` if and only if the device sent exactly the reply for `vs`. This holds in both error styles. |
| Command.AckMismatchStops | dpscope/model/command.py:137-138 | With `ack` set, a wrong echo raises CommsException (AssertionError) after reading one byte. The payload is never read, and the request was written in full. |
| Command.TrailingBytesRejected | dpscope/model/command.py:146-149 | Bytes left after a complete reply raise, reporting their number, after the reply itself is consumed. |
| Command.HCommandNeverSucceeds | dpscope/model/command.py:125-134 | An `"H"` command never succeeds. One argument fails the count check with nothing written. Two arguments pass it, then struct.error is raised with the opcode already written. |
| Command.TransactionByFields | dpscope/model/command.py:125-129 | The exchange with one argument per format field: a mismatch raises before anything is written, and otherwise it is `Perform`. |
| Command.CountChecksAgree | dpscope/model/command.py:125-126 | On the empty, `B` and `BB` formats the byte count and the field count give the same exchange. |
| Command.HCommandByFields | dpscope/model/command.py:125-138 | With the field count, an `"H"` command sends its value high byte first and completes on a correct echo. |
| Command.WideOpcodeNeverAcknowledged | dpscope/model/command.py:63-69 | An acknowledged opcode from 128 to 0x7FF can never succeed, because its echo is two bytes. |
| Command.ClosedTransaction | dpscope/model/command.py:125-133 | On a closed port the call always raises. A count mismatch still raises CommandException first, and the opcode's encoding error comes next. Otherwise the first `write` raises SerialException, exactly when both checks pass. |
| Command.ReadbackTransaction | dpscope/model/command.py:174-195 | If the request encodes, it is what was written. The result is None exactly when no status byte arrived. A returned block is the complete input after the status byte: at most `1 + 2*nob` bytes, and exactly the UTF-8 encoding of the returned code points. Nothing is left pending. |
| Command.Readback | dpscope/model/command.py:184-195 | Driving the link gives `ReadbackTransaction`'s result, bytes written and bytes consumed. |
| Command.ClosedReadback | dpscope/model/command.py:185 | On a closed port the readback always raises: with the request's encoding error if it has one, and otherwise with SerialException from the `write`. |
| Command.ReadbackRequestAscii | dpscope/model/command.py:185 | Opcode and count below 128 go out as the two bytes `cmd, nob`. |
| Command.ReadbackRequest205 | dpscope/model/command.py:185 | A count of 205 goes out as three bytes, `cmd, 0xC3, 0x8D`. |
| Command.ReadbackAsciiBlock | dpscope/model/command.py:186-195 | Any status byte, followed by exactly `1 + 2*nob` bytes below 0x80, returns those bytes. |
| Command.ReadbackUtf8Block | dpscope/model/command.py:186-195 | The converse: any status byte followed by the UTF-8 encoding of scalar values, `1 + 2*nob` bytes long, returns those values. |
| Command.ReadbackRawSampleRejected | dpscope/model/command.py:189-190 | A block of the right length whose first byte cannot start UTF-8 raises UnicodeDecodeError. |
| Command.RawReadbackTransaction | dpscope/low.py:213 | The per-byte readback: values outside 0..255 raise ValueError with nothing written. Otherwise the request is `cmd, nob`, the result is None exactly for no status byte, and on success it gives the block after the status byte, at most `1 + 2*nob` bytes. |
| Command.RawReadbackBlock | dpscope/low.py:213-214 | With the per-byte readback, any block of the right length is returned byte for byte. |
| Command.DacBytes | dpscope/model/command.py:213-215 | B2 is a byte. For a 12-bit DAC value, B1 is a byte, its bit 7 is `ch mod 2`, its bit 4 is set, and `(B1 & 0x0F)*256 + B2` is the value. |
| Command.SetDac | dpscope/model/command.py:202-216 | Set DAC is an ordinary exchange of the two DAC bytes. |
| Interface.TableOpcodes | dpscope/model/interface.py:35-65 | The table's opcodes, in order, are 3 to 8, 21 to 33, 41 to 45, 49 and 51, strictly increasing. Entry 8 is `read_back` on 23. |
| Interface.OpcodesDistinct | dpscope/model/interface.py:35-65 | No two attributes share an opcode, and every opcode lies in 3..51. |
| Interface.OneByteCommands | dpscope/model/interface.py:44-56 | Commands 21, 22 and 24-33 all expect the echo, take one `B` argument and return nothing. |
| Interface.ReadAdcReply | dpscope/model/interface.py:35 | `read_adc` writes 3, needs the echo 3 and returns two bytes. |
| Interface.PingWithoutEcho | dpscope/model/interface.py:36 | `ping` writes 4 and returns the 7-byte string with no echo. |
| Interface.RevisionWithoutEcho | dpscope/model/interface.py:37 | `revision` writes 5 and returns two bytes with no echo. |
| Interface.WordPairReply | dpscope/model/interface.py:40-41 | `read_adc_10` and `measure_offset` return two big-endian words between two echoes. |
| Interface.DPScopeInterface.constructor | dpscope/model/interface.py:23-32 | The port is open at construction, with nothing written. |
| Interface.DPScopeInterface.Open | dpscope/model/interface.py:83-93 | `open` (closing an open port first) always ends with the port open and moves no bytes. |
| Interface.DPScopeInterface.Close | dpscope/model/interface.py:95-104 | `close` always ends with the port closed and moves no bytes. |
| Interface.DPScopeInterface.Enter | dpscope/model/interface.py:67-75 | `__enter__` opens the port and returns the interface itself. |
| Interface.DPScopeInterface.Exit | dpscope/model/interface.py:77-81 | `__exit__` closes the port. |
| Interface.DPScopeInterface.Call | dpscope/model/interface.py:35-65 | Calling a command attribute on an open port is `Transaction` on the shared connection. On a closed port it returns `ClosedTransaction` and moves no bytes. The port stays as it was. |
| Interface.DPScopeInterface.ReadBack | dpscope/model/interface.py:46 | `read_back` on an open port is the readback exchange on opcode 23. On a closed port it returns `ClosedReadback` and moves no bytes. |
| Interface.DPScopeInterface.SetDac | dpscope/model/interface.py:62 | `set_dac` on an open port is the Set DAC exchange on opcode 44. On a closed port it raises SerialException and moves no bytes. |
| Low.LegacyCall | dpscope/low.py:86-123 | The legacy class's call writes and reads nothing. It raises CommandException on a count mismatch, and AttributeError otherwise. |
| Low.LegacyCallNeverTalks | dpscope/low.py:100-108 | No reply gets through the legacy class, while `model/command.py` accepts the same reply. |
| Low.LegacyPreGainCollides | dpscope/low.py:198-242 | The legacy table is the newer one with `pre_gain` on opcode 41, the opcode of `trig_level`, so its opcodes are not distinct. |
| Low.ConcludeStyles | dpscope/low.py:190-194 | Both styles read the same bytes after the payload and succeed on the same input with the same values. |
| Low.ReadPayloadStyles | dpscope/low.py:187-194 | The same, from the payload on. |
| Low.CmdImplMatchesCommand | dpscope/low.py:176-196 | For every opcode below 128, the `_cmd` exchange writes, reads and returns on success exactly what `Command.__call__` does. Only the exception differs. |
| Low.ReadBackMatchesCommand | dpscope/low.py:208-217 | The legacy readback agrees with `CommandReadback` in the same sense. |
| Low.CmdImpl | dpscope/low.py:176-196 | A `_cmd` method drives the link as `Transaction` in the asserting style. |
| Low.ReadBack | dpscope/low.py:208-217 | `read_back` drives the link as the readback exchange on opcode 23. |
| Low.SetDac | dpscope/low.py:234-238 | `set_dac` sends the same two DAC bytes as `CommandSetDac`, through `_set_dac`, and discards the reply. |
| Gains.LookupSpec | dpscope/model/controller/helper/gain.py:35-59 | With unique keys, a lookup succeeds exactly on the keys present, and returns the other field of that entry. |
| Gains.Lookup | dpscope/model/controller/helper/gain.py:35-41 | The filtered list comprehension and its length check: GainException unless exactly one entry matches. `LookupSpec` and `DuplicateRejected` state when it succeeds. |
| Gains.ValToCode | dpscope/model/controller/helper/gain.py:25-41 | `val_to_code`: the lookup by value, returning the code. `GainLookups`, `PreGainLookups` and `ValRoundTrip` state it on the two tables. |
| Gains.CodeToVal | dpscope/model/controller/helper/gain.py:43-59 | `code_to_val`: the lookup by code, returning the value. `GainLookups`, `PreGainLookups` and `CodeRoundTrip` state it on the two tables. |
| Gains.CodeForVal | dpscope/model/controller/helper.py:35-51 | helper.py's `code_for_val`. `HelperAgrees` proves it equal to `val_to_code`. |
| Gains.ValForCode | dpscope/model/controller/helper.py:53-69 | helper.py's `val_for_code`. `HelperAgrees` proves it equal to `code_to_val`. |
| Gains.MatchesUnique | dpscope/model/controller/helper/gain.py:53-54 | With unique keys, a present key matches exactly one entry. |
| Gains.DuplicateRejected | dpscope/model/controller/helper/gain.py:35-40 | A value present twice is rejected: exactly one match is required. |
| Gains.CodeRoundTrip | dpscope/model/controller/helper/gain.py:25-59 | `val_to_code(code_to_val(c)) == c` for every defined code of a bijective table. |
| Gains.ValRoundTrip | dpscope/model/controller/helper/gain.py:25-59 | `code_to_val(val_to_code(v)) == v` for every defined value of a bijective table. |
| Gains.GainTableShape | dpscope/model/controller/helper/gain.py:66-74 | Codes 0 to 7 carry strictly increasing values. |
| Gains.TablesBijective | dpscope/model/controller/helper/gain.py:66-83 | Codes and values are unique in both tables. |
| Gains.GainLookups | dpscope/model/controller/helper/gain.py:43-74 | `code_to_val` maps 0..7 to 1, 2, 4, 5, 8, 10, 16, 32 and raises otherwise. `val_to_code` succeeds exactly on those values. |
| Gains.PreGainLookups | dpscope/model/controller/helper/gain.py:77-83 | PreGain maps code 0 to 1 and code 1 to 10, and rejects everything else in both directions. |
| Gains.HelperAgrees | dpscope/model/controller/helper.py:35-93 | The helper.py tables are the same. `code_for_val` and `val_for_code` agree with gain.py on every key, and are mutual inverses on the defined codes. |
| Calibration.CalibrationLog | dpscope/model/controller/helper/__init__.py:39-45 | The calibration always starts with `adcon_from(0)`. |
| Calibration.UpTo | dpscope/model/controller/helper/__init__.py:39-45 | A run of commands stops at the first that raises: what was sent is a prefix of the plan. `UpToAll` and `UpToFailure` state its two cases. |
| Calibration.UpToAll | dpscope/model/controller/helper/__init__.py:39-45 | With no failing command the whole plan is sent. |
| Calibration.UpToFailure | dpscope/model/controller/helper/__init__.py:39-45 | When some command fails, the last command sent is the first failing one, and none before it fails. |
| Calibration.UsbReference | dpscope/model/controller/helper/__init__.py:46-47 | The USB reference is never zero. |
| Calibration.CalibrationResult | dpscope/model/controller/helper/__init__.py:39-47 | A successful calibration yields a nonzero reference. |
| Calibration.UsbFormula | dpscope/model/controller/helper/__init__.py:43-47 | `5 * (3 * 1023/5) / (sum/2)` is `6138 / sum`. |
| Calibration.CalibrationFails | dpscope/model/controller/helper/__init__.py:39-45 | The calibration fails exactly when the device fails `adcon_from` (27), `set_dac` (44) or `measure_offset` (8). |
| Calibration.CalibrationPlan | dpscope/model/controller/helper/__init__.py:39-45 | The commands sent are adcon_from(0), set_dac(0,3000), set_dac(1,3000), measure_offset, set_dac(0,0), set_dac(1,0), in that order, up to and including the first that raises. |
| Calibration.CalibrationValue | dpscope/model/controller/helper/__init__.py:39-47 | The reference is CommsException if a command raises, ZeroDivisionError for a zero offset sum, and `6138 / sum` otherwise. |
| Calibration.Calibrate | dpscope/model/controller/helper/__init__.py:39-47 | The uncached `usb_voltage` body returns `CalibrationResult` and logs `CalibrationLog`. |
| Calibration.CachedUsb | dpscope/model/controller/helper/__init__.py:32-51 | A nonzero cache is returned as it is, and any reference returned is nonzero. |
| Calibration.CachedOnce | dpscope/model/controller/helper/__init__.py:39-51 | Once computed, the reference is cached, and later accesses return it with no command. |
| Calibration.ChannelVolts | dpscope/model/controller/helper/__init__.py:65-69 | The conversion gives one voltage per channel, or TypeError. |
| Calibration.ChannelVoltsStops | dpscope/model/controller/helper/__init__.py:66-69 | After a channel fails, the whole conversion fails with TypeError. |
| Calibration.ChannelVoltsSpec | dpscope/model/controller/helper/__init__.py:65-71 | The conversion succeeds exactly when every channel's gains are set. Channel `ch` is then its count times `scale * pregain[ch] * gain[ch]`. |
| Calibration.ReadVoltSpec | dpscope/model/controller/helper/__init__.py:53-71 | `read_volt` succeeds exactly when all of these hold: `read_adc` gives two values, the reference is available, and all gains are set. Then each channel is scaled by its own gains. A malformed reading raises CommsException after `read_adc` alone. |
| Calibration.ReadVoltResult | dpscope/model/controller/helper/__init__.py:53-71 | The result of `read_volt`, stated by `ReadVoltSpec`: the `read_adc` reply, the shape check, `usb_voltage`, then the per-channel conversion. |
| Calibration.LegacyReadVoltSpec | dpscope/model/controller/helper.py:135-150 | One multiplier scales both values. An unset gain is reported even for a malformed reading, and a malformed reading still calibrates. |
| Calibration.LegacyReadVoltResult | dpscope/model/controller/helper.py:135-150 | The result of helper.py's `read_volt`, stated by `LegacyReadVoltSpec`: `read_adc`, then `usb_voltage` and the shared multiplier, then the shape check. |
| Calibration.VoltageCalc.constructor | dpscope/model/controller/helper/__init__.py:17-30 | The cache is empty and all four gains are unset. |
| Calibration.VoltageCalc.UsbVoltage | dpscope/model/controller/helper/__init__.py:32-51 | The property returns `CachedUsb`, updates the cache and logs `UsbLog`. |
| Calibration.VoltageCalc.ReadVoltAsWritten | dpscope/model/controller/helper/__init__.py:60-68 | As written, `read_volt` issues only `read_adc`. After the shape check it raises AttributeError on `USB_voltage`. |
| Calibration.VoltageCalc.ReadVolt | dpscope/model/controller/helper/__init__.py:53-71 | With `usb_voltage`, `read_volt` returns `ReadVoltResult` and logs `ReadVoltLog`. It calibrates only after a well-formed reading. |
| Calibration.LegacyVoltageCalc.constructor | dpscope/model/controller/helper.py:100-112 | The cache is empty and gain and pregain are unset. |
| Calibration.LegacyVoltageCalc.UsbVoltage | dpscope/model/controller/helper.py:114-133 | The same property as in `helper/__init__.py`. |
| Calibration.LegacyVoltageCalc.ReadVoltAsWritten | dpscope/model/controller/helper.py:142-144 | As written, `read_volt` raises AttributeError right after `read_adc`. |
| Calibration.LegacyVoltageCalc.ReadVolt | dpscope/model/controller/helper.py:135-150 | With `usb_voltage`, `read_volt` returns `LegacyReadVoltResult` and logs `LegacyReadVoltLog`. |
| VoltageMeasure.GuardAsWrittenRaises | dpscope/model/controller/helper/voltage_measure.py:20-74 | The guard as written and the intended guard let the same values through. As written, LIMIT raises TypeError from `__lt__`; the intended guard raises ResolutionSettingsException. |
| VoltageMeasure.GuardAsWritten | dpscope/model/controller/helper/voltage_measure.py:70-74 | The guard `adc_res >= LIMIT` as written, through the `__lt__` that `total_ordering` builds `>=` from. `GuardAsWrittenRaises` states it. |
| VoltageMeasure.Guard | dpscope/model/controller/helper/voltage_measure.py:70-74 | The intended guard: ResolutionSettingsException for LIMIT only. |
| VoltageMeasure.SetResolutionStep | dpscope/model/controller/helper/voltage_measure.py:62-77 | The `resolution` setter as a step on the meter's fields and the device log. `SetResolutionSends` states it. |
| VoltageMeasure.GetResolutionStep | dpscope/model/controller/helper/voltage_measure.py:51-60 | The `resolution` getter, with its lazy default. `LazyResolution` states it. |
| VoltageMeasure.UsbStep | dpscope/model/controller/helper/voltage_measure.py:79-107 | The `usb` property: the cache, or a calibration at high resolution followed by the restore. `UsbSequence`, `UsbSequenceUnset`, `UsbRestoresAndCaches` and `UsbFailureKeepsCacheEmpty` state it. |
| VoltageMeasure.CalibrateStep | dpscope/model/controller/helper/voltage_measure.py:88-105 | The uncached branch of `usb`: switch to high, measure the offsets, compute the reference, and restore the resolution. |
| VoltageMeasure.ScaleStep | dpscope/model/controller/helper/voltage_measure.py:120-121 | `max_V`: the reference at low resolution, a quarter of it at high. `ReadSpec` states it. |
| VoltageMeasure.ReadStep | dpscope/model/controller/helper/voltage_measure.py:109-133 | The whole `read`: `max_V` first, then `read_adc`, then the conversion. `ReadSpec` states it. |
| VoltageMeasure.Convert | dpscope/model/controller/helper/voltage_measure.py:122-133 | The `read_adc` reply, the shape check, and the per-channel loop. `ReadSpec` states it. |
| VoltageMeasure.SetResolutionSends | dpscope/model/controller/helper/voltage_measure.py:62-77 | The setter sends `adcon_from(0)` for high and `adcon_from(1)` for low, then records the value. A raising command keeps the old value. LIMIT is rejected before any command. |
| VoltageMeasure.LazyResolution | dpscope/model/controller/helper/voltage_measure.py:51-60 | An unset resolution becomes low, with exactly one `adcon_from(1)`. A stored one is returned with no command. |
| VoltageMeasure.ReferenceFormula | dpscope/model/controller/helper/voltage_measure.py:100-101 | `5 * (3 * 256/1.25) / (sum/2)` is `6144 / sum`. |
| VoltageMeasure.UsbSequence | dpscope/model/controller/helper/voltage_measure.py:79-107 | The first `usb` access does these steps: switch to high, send the DAC and offset commands in order, cache `6144 / sum`, and switch back to low if it was low. |
| VoltageMeasure.UsbSequenceUnset | dpscope/model/controller/helper/voltage_measure.py:79-107 | From an unset resolution, the lazy `adcon_from(1)` comes first and low is restored at the end. |
| VoltageMeasure.UsbRestoresAndCaches | dpscope/model/controller/helper/voltage_measure.py:86-107 | After a successful `usb` the resolution is the one on entry, and the value is cached and nonzero. The next access returns it with no command. |
| VoltageMeasure.UsbFailureKeepsCacheEmpty | dpscope/model/controller/helper/voltage_measure.py:86-101 | A failed calibration leaves the cache empty. |
| VoltageMeasure.ReadSpec | dpscope/model/controller/helper/voltage_measure.py:109-133 | `max_V` is the reference at low resolution and a quarter of it at high, and it is computed before `read_adc`. A reading of the wrong shape raises CommsException. Success requires a two-value reading and all gains set, and gives `max_V*4/255*pregain[ch]*gain[ch]*adc[ch]`. |
| VoltageMeasure.VoltageSingleRead.constructor | dpscope/model/controller/helper/voltage_measure.py:42-49 | Nothing is cached, the resolution is unset and all gains are unset. |
| VoltageMeasure.VoltageSingleRead.SetResolution | dpscope/model/controller/helper/voltage_measure.py:62-77 | The setter performs `SetResolutionStep`. |
| VoltageMeasure.VoltageSingleRead.GetResolution | dpscope/model/controller/helper/voltage_measure.py:51-60 | The getter performs `GetResolutionStep`. |
| VoltageMeasure.VoltageSingleRead.Usb | dpscope/model/controller/helper/voltage_measure.py:79-107 | The property performs `UsbStep`. |
| VoltageMeasure.VoltageSingleRead.Calibrate | dpscope/model/controller/helper/voltage_measure.py:88-105 | The uncached body performs `CalibrateStep`. |
| VoltageMeasure.VoltageSingleRead.MeasureOffsets | dpscope/model/controller/helper/voltage_measure.py:92-99 | Returns the offset sum and logs the DAC and offset commands, up to the first that raises. |
| VoltageMeasure.VoltageSingleRead.Read | dpscope/model/controller/helper/voltage_measure.py:109-133 | `read` performs `ReadStep`. |
| VoltageMeasure.VoltageSingleRead.FullScale | dpscope/model/controller/helper/voltage_measure.py:120-121 | `max_V` performs `ScaleStep`. |
| VoltageMeasure.VoltageSingleRead.ReadChannels | dpscope/model/controller/helper/voltage_measure.py:122-133 | The channel loop issues only `read_adc` and returns `Convert`. |
| VoltageMeasure.VoltageStreamer.constructor | dpscope/model/controller/helper/voltage_measure.py:154-164 | The queue is empty, and the runner is idle with the given period. |
| VoltageMeasure.VoltageStreamer.Acquire | dpscope/model/controller/helper/voltage_measure.py:166-174 | One acquisition appends exactly the one reading `read` returns. A raising read leaves the queue as it was. |
| VoltageMeasure.VoltageStreamer.ClearStream | dpscope/model/controller/helper/voltage_measure.py:176-186 | Draining hands back every reading, oldest first, and leaves the queue empty. |
| VoltageMeasure.VoltageStreamer.StreamQueueGet | dpscope/model/controller/helper/voltage_measure.py:188-195 | Returns the queue. |
| VoltageMeasure.VoltageStreamer.StreamPeriodGet | dpscope/model/controller/helper/voltage_measure.py:197-202 | Returns the runner's period. |
| VoltageMeasure.VoltageStreamer.VoltageReaderSet | dpscope/model/controller/helper/voltage_measure.py:204-212 | Replaces the reader. |
| VoltageMeasure.VoltageStreamer.Start | dpscope/model/controller/helper/voltage_measure.py:214-218 | Starting an idle runner succeeds, and the runner is then running with its deadline set. Starting a running one raises ConcurrentException and leaves the runner as it was. |
| VoltageMeasure.VoltageStreamer.Stop | dpscope/model/controller/helper/voltage_measure.py:220-225 | An idle runner is left as it was. On a running one the stop signal is posted and the worker runs over the given clock readings until it ends (`Trace`). The runner ends idle and the queue empty. |
| Trigger.GuardsAsWrittenRaise | dpscope/model/controller/helper/trigger.py:70-102 | As written, both guards raise TypeError for every value. The intended guards reject exactly LIMIT. |
| Trigger.SourceGuardAsWritten | dpscope/model/controller/helper/trigger.py:70-74 | `trigger_src >= LIMIT` as written, on an Enum with no ordering. `GuardsAsWrittenRaise` states it. |
| Trigger.PolGuardAsWritten | dpscope/model/controller/helper/trigger.py:98-102 | The polarity guard as written. |
| Trigger.SetSourceStep | dpscope/model/controller/helper/trigger.py:62-77 | The `source` setter as a step on the stored value and the device log. `SetSourceSpec` states it. |
| Trigger.GetSourceStep | dpscope/model/controller/helper/trigger.py:51-60 | The `source` getter, with its lazy default. `SourceDefault` states it. |
| Trigger.SetPolStep | dpscope/model/controller/helper/trigger.py:90-107 | The `pol` setter. `SetPolSpec` states it. |
| Trigger.GetPolStep | dpscope/model/controller/helper/trigger.py:79-88 | The `pol` getter, with its lazy default. `PolDefault` states it. |
| Trigger.SetSourceSpec | dpscope/model/controller/helper/trigger.py:62-77 | LIMIT raises TriggerSettingsException with no command. An accepted source sends one `trig_source` with its index, and is stored only if that command does not raise. |
| Trigger.SetPolSpec | dpscope/model/controller/helper/trigger.py:90-107 | The same for polarity and `trig_pol`. |
| Trigger.SourceDefault | dpscope/model/controller/helper/trigger.py:51-60 | An unset source reads as auto after exactly one `trig_source(0)`. A stored one is returned with no command. |
| Trigger.PolDefault | dpscope/model/controller/helper/trigger.py:79-88 | An unset polarity reads as rising after exactly one `trig_pol(0)`. A stored one is returned with no command. |
| Trigger.StoredNeverLimit | dpscope/model/controller/helper/trigger.py:70-104 | From a state without LIMIT, no setter or getter ever stores LIMIT. |
| Trigger.TriggerSettings.constructor | dpscope/model/controller/helper/trigger.py:42-49 | Source and polarity start unset. |
| Trigger.TriggerSettings.SetSource | dpscope/model/controller/helper/trigger.py:62-77 | The setter performs `SetSourceStep`. |
| Trigger.TriggerSettings.GetSource | dpscope/model/controller/helper/trigger.py:51-60 | The getter performs `GetSourceStep`. |
| Trigger.TriggerSettings.SetPol | dpscope/model/controller/helper/trigger.py:90-107 | The setter performs `SetPolStep`. |
| Trigger.TriggerSettings.GetPol | dpscope/model/controller/helper/trigger.py:79-88 | The getter performs `GetPolStep`. |
| Scope.HelperRequestsAccepted | dpscope/model/interface.py:44-62 | The `adcon_from`, `arm`, `trig_source`, `trig_pol` byte arguments the helpers send pass the count check and pack, and so do the Set DAC bytes and the argument-less reads. |
| Scope.ArmFftWithoutArgumentsRefused | dpscope/model/controller/helper/poll.py:140 | `arm_fft()` with no arguments raises CommandException. |
| Scope.FakeIsWellBehaved | dpscope/model/command.py:111-151 | For a request the fake accepts and any payload of the reply format, the wire exchange on a well-behaved device's reply writes the opcode and the packed arguments, and returns that payload. |
| Scope.FakeScope.Send | dpscope/model/interface.py:35-65 | A command attribute of the fake: a refused request raises its count or packing error and is not logged. Any other request is logged, and fails with CommsException exactly when its opcode is set to fail. |
| Scope.FakeScope.ReadBack | dpscope/model/interface.py:46 | `read_back` on the fake: always logged, CommsException when opcode 23 fails, and otherwise the next scripted block. When the script is used up it returns `NoDataYet`. |
| Poll.MakePoll | dpscope/model/controller/helper/poll.py:25-46 | `make_poll` succeeds exactly for Time and Fft, and raises InvalidPollType otherwise. |
| Poll.MakePollKinds | dpscope/model/controller/helper/poll.py:37-40 | Time gives the time poller and Fft the frequency poller. |
| Poll.Strip | dpscope/model/controller/helper/poll.py:126 | `data[1:]` drops exactly the status byte. |
| Poll.Evens | dpscope/model/controller/helper/poll.py:129 | `d[0::2]` has `ceil(n/2)` items, the even positions. |
| Poll.Odds | dpscope/model/controller/helper/poll.py:129 | `d[1::2]` has `floor(n/2)` items, the odd positions. |
| Poll.InterleaveRestores | dpscope/model/controller/helper/poll.py:129 | Re-interleaving the two channels gives the data back. |
| Poll.ParseTimeSpec | dpscope/model/controller/helper/poll.py:114-129 | Channel 1 gets the even positions after the status byte and channel 2 the odd ones: `ceil(n/2)` and `floor(n/2)` samples. Re-interleaving them gives `data[1:]`. |
| Poll.ParseTime | dpscope/model/controller/helper/poll.py:114-129 | `PollTime._parse`: drop the status byte, then split into even and odd positions. `ParseTimeSpec` states it. |
| Poll.ParseFftSpec | dpscope/model/controller/helper/poll.py:142-158 | With an integer index, the parts are a prefix of `min(n/2+1, n)` samples and the rest, together `data[1:]`. As written, the float index raises TypeError. |
| Poll.ParseFftAsWritten | dpscope/model/controller/helper/poll.py:157-158 | `PollFft._parse` as written: the float index makes every slice raise TypeError. This is a constant definition, so the as-written half of `ParseFftSpec` holds by definition. |
| Poll.ParseFft | dpscope/model/controller/helper/poll.py:142-158 | `PollFft._parse` with the integer index `len(data)//2 + 1`. `ParseFftSpec` states it. |
| Poll.FirstArrival | dpscope/model/controller/helper/poll.py:82-83 | The first readback result that ends the `while not data` loop. |
| Poll.DoSpec | dpscope/model/controller/helper/poll.py:73-85 | A successful `do` does the following: `arm(0)`, `read_back(205)` until the first block, `abort` exactly once and last, then the parsed block. The frequency poller fails at its arm with nothing sent. On a device that answers, success comes exactly when a block arrives. |
| Poll.Await | dpscope/model/controller/helper/poll.py:81-83 | The `while not data` loop over the scripted readbacks: a raising readback or the first block ends it. `DoSpec` states it. |
| Poll.Collect | dpscope/model/controller/helper/poll.py:81-85 | The loop, then `abort`, then the parse. `DoSpec` states it. |
| Poll.DoStep | dpscope/model/controller/helper/poll.py:73-85 | `do`: arm, then `Collect`. `DoSpec` states it. |
| Poll.Poller.constructor | dpscope/model/controller/helper/poll.py:57-64 | Holds the kind and the interface. |
| Poll.Poller.Arming | dpscope/model/controller/helper/poll.py:108-140 | The time poller sends `arm(0)`. The frequency poller's `arm_fft()` is refused before anything is sent. |
| Poll.Poller.AwaitBlock | dpscope/model/controller/helper/poll.py:81-83 | The readback loop performs `Await`. |
| Poll.Poller.CollectBlock | dpscope/model/controller/helper/poll.py:81-85 | The loop, `abort` and the parse perform `Collect`. |
| Poll.Poller.Do | dpscope/model/controller/helper/poll.py:73-85 | `do` performs `DoStep`. |
| Concurrent.StopSignalFirst | dpscope/concurrent.py:64-68 | A truthy stop signal ends the loop before the clock is consulted: no run, and the deadline is unchanged. |
| Concurrent.Tick | dpscope/concurrent.py:63-74 | One iteration of `_main_loop_c`. `StopSignalFirst`, `TickFires` and `FirstIterationFires` state it. |
| Concurrent.Trace | dpscope/concurrent.py:58-74 | The loop over a sequence of clock readings. `TraceDeadline`, `TraceRunsOnTime`, `RunCountBound` and `StopSignalEndsLoop` state it. |
| Concurrent.TickFires | dpscope/concurrent.py:71-74 | Without a stop, the body runs exactly when `now >= deadline`. The deadline then moves by exactly one period, whatever `now` is. |
| Concurrent.PeriodsTimes | dpscope/concurrent.py:74 | `m` additions of `period/1000` make `m * period/1000`. |
| Concurrent.TraceDeadline | dpscope/concurrent.py:62-74 | After any readings, the deadline is the entry deadline plus one period per run. It is never reset from the clock, and earlier runs are kept. |
| Concurrent.TraceRunsOnTime | dpscope/concurrent.py:71-74 | The k-th run is at a reading no earlier than the entry deadline plus k periods. |
| Concurrent.LastRunOnTime | dpscope/concurrent.py:71-74 | The same for the last run. |
| Concurrent.RunCountBound | dpscope/concurrent.py:62-74 | If `n` runs happened by time `T`, then `n - 1` periods fit between the entry deadline and `T`. |
| Concurrent.StopSignalEndsLoop | dpscope/concurrent.py:63-68 | A queue ending in a truthy signal ends the loop within as many iterations as it holds signals. |
| Concurrent.FirstIterationFires | dpscope/concurrent.py:62-73 | The deadline is set on entry, so the first iteration runs the body at once. |
| Concurrent.Scheduler.constructor | dpscope/concurrent.py:48-56 | Starts idle, with the period and the deadline set from the clock. |
| Concurrent.Scheduler.SetPeriod | dpscope/concurrent.py:41-46 | The setter stores the period. |
| Concurrent.Scheduler.Start | dpscope/concurrent.py:82-91 | From idle it creates the worker, whose loop sets the deadline. With a worker present it raises ConcurrentException and changes nothing. |
| Concurrent.Scheduler.Iterate | dpscope/concurrent.py:63-74 | One loop iteration performs `Tick`. |
| Concurrent.Scheduler.Run | dpscope/concurrent.py:58-74 | The loop performs `Trace`. |
| Concurrent.Scheduler.Stop | dpscope/concurrent.py:93-102 | On an idle scheduler nothing changes. Otherwise the stop signal is posted, the worker runs until it ends, and the scheduler is idle again. |
| Concurrent.Scheduler.Close | dpscope/concurrent.py:104-111 | `close` raises ConcurrentException exactly while a signal is still queued. |
| Timer.TrimCount | dpscope/common/timer.py:86-89 | Every stamp popped is earlier than the reference, and the first one kept is not. |
| Timer.TrimSorted | dpscope/common/timer.py:75-89 | For a sorted buffer, the trimmed buffer is sorted and holds only stamps at or after the reference. Every such stamp survives. |
| Timer.TrimEdges | dpscope/common/timer.py:86-93 | All-older stamps leave an empty buffer (the IndexError path), and an empty buffer stays empty. |
| Timer.Trimmed | dpscope/common/timer.py:75-93 | The buffer `_trim_timestamps_c` leaves. `TrimSorted` and `TrimEdges` state it. |
| Timer.TimerStepSpec | dpscope/common/timer.py:49-73 | With no ping nothing changes. Otherwise one ping is taken, the buffer ends with `now`, and the rate `1000*len/window_ms` is queued; a zero window raises ZeroDivisionError instead. |
| Timer.TimerStep | dpscope/common/timer.py:49-73 | One iteration of `_timer_c`. `TimerStepSpec` and `TimerStepKeepsOrder` state it. |
| Timer.TimerStepKeepsOrder | dpscope/common/timer.py:59-65 | For non-decreasing readings the buffer stays sorted. After a ping it holds only stamps within the window ending at `now`. |
| Timer.TrimThenAppend | dpscope/common/timer.py:63-65 | Trimming a sorted buffer and appending a later stamp keeps it sorted, and all its stamps lie between the reference and `now`. |
| Timer.Latest | dpscope/common/timer.py:115-118 | The last queued rate, or None exactly when none is queued. |
| Timer.RateWindow.constructor | dpscope/common/timer.py:31-39 | Empty buffer, no pings, no rates, an idle runner with period 0. |
| Timer.RateWindow.Trim | dpscope/common/timer.py:75-93 | Popping in place leaves `Trimmed` of the old buffer. |
| Timer.RateWindow.Step | dpscope/common/timer.py:49-73 | One worker iteration performs `TimerStep`. |
| Timer.RateWindow.Mark | dpscope/common/timer.py:103-107 | `mark` adds one ping. |
| Timer.RateWindow.RateGet | dpscope/common/timer.py:109-118 | `rate_get` drains the queue and returns its latest rate, or None. |
| Timer.RateWindow.Start | dpscope/common/timer.py:95-101 | Starting an idle runner succeeds, and the runner is then running with its deadline set. Starting a running one raises ConcurrentException and leaves the runner as it was. |
| Timer.RateWindow.Stop | dpscope/common/timer.py:120-126 | An idle runner is left as it was. On a running one the stop signal is posted and the worker runs over the given clock readings until it ends (`Trace`). The runner ends idle and the buffer empty. |
| GainSetting.VoltageMax | dpscope/controller/helper/gain_setting.py:34-40 | `voltage_max * cumulative_gain == 5 * 4`, and ZeroDivisionError exactly for a zero cumulative gain. |
| GainSetting.CumulativeGain | dpscope/controller/helper/gain_setting.py:25-32 | `cumulative_gain`: the product of gain and pregain. `DefaultsFullScale` gives its values on the defaults. |
| GainSetting.DefaultsInTables | dpscope/controller/helper/gain_setting.py:112-120 | Every default has pregain in {1, 10} and gain in {2, 4, 8, 16, 32}, so each has an amplifier code. |
| GainSetting.DefaultsFullScale | dpscope/controller/helper/gain_setting.py:22-40 | The defaults' cumulative gains are 4 to 320 and their full-scale voltages 5 V down to 62.5 mV. |
| GainSetting.DefaultsDistinct | dpscope/controller/helper/gain_setting.py:112-120 | The seven display strings are distinct. |
| GainSetting.AddSpec | dpscope/controller/helper/gain_setting.py:125-132 | `gain_option_add` stores the option under its display string and leaves the other options and the selection alone. A new key is appended, and an existing key keeps its place. |
| GainSetting.Add | dpscope/controller/helper/gain_setting.py:125-132 | `gain_option_add` on the key order, the dictionary and the selection. `AddSpec` and `AddAllDistinct` state it. |
| GainSetting.AddAllDistinct | dpscope/controller/helper/gain_setting.py:122-132 | Options with distinct keys, added in order, are listed in that order, each under its own key. |
| GainSetting.DefaultTable | dpscope/controller/helper/gain_setting.py:108-123 | After `__init__`, `gains` lists the seven display strings in insertion order, each mapping to its option, with nothing selected. |
| GainSetting.SelectSpec | dpscope/controller/helper/gain_setting.py:85-106 | The setter succeeds exactly for a known key, and the getter then returns that key's option. An unknown key raises ValueError and changes nothing. |
| GainSetting.Select | dpscope/controller/helper/gain_setting.py:93-106 | The `selected_gain` setter. `SelectSpec` states it. |
| GainSetting.Selected | dpscope/controller/helper/gain_setting.py:85-91 | The `selected_gain` getter. `SelectSpec` and `SelectedAfterAdd` state it. |
| GainSetting.SelectedAfterAdd | dpscope/controller/helper/gain_setting.py:85-91 | Before any selection the getter raises KeyError. Adding options never loses a stored selection. |
| GainSetting.GainOptions.constructor | dpscope/controller/helper/gain_setting.py:108-123 | The constructor adds the seven defaults in order. |
| GainSetting.GainOptions.GetGains | dpscope/controller/helper/gain_setting.py:77-83 | `gains` returns the keys in insertion order, exactly the dictionary's keys. |
| GainSetting.GainOptions.GainOptionAdd | dpscope/controller/helper/gain_setting.py:125-132 | The method performs `Add`. |
| GainSetting.GainOptions.SetSelected | dpscope/controller/helper/gain_setting.py:93-106 | The setter performs `Select`. |
| GainSetting.GainOptions.GetSelected | dpscope/controller/helper/gain_setting.py:85-91 | The getter performs `Selected`. |
| AcquisitionRate.Speeds | dpscope/controller/helper/acquisition_rate.py:30-37 | `speeds` is the option keys in dictionary order. |
| AcquisitionRate.MsPerDiv | dpscope/controller/helper/acquisition_rate.py:23-26 | A key has a time per division exactly when it is one of the speeds, and then it is that option's value. |
| AcquisitionRate.SpeedsAndPeriods | dpscope/controller/helper/acquisition_rate.py:23-61 | The speeds are exactly "100 ms/div", "200 ms/div", "500 ms/div" and "1 s/div", with periods 10, 20, 50 and 100 ms. |
| AcquisitionRate.Period | dpscope/controller/helper/acquisition_rate.py:59-61 | A period exists exactly for a known speed and is its ms per division over `reads_per_div`. |
| AcquisitionRate.SelectSpec | dpscope/controller/helper/acquisition_rate.py:47-61 | An accepted key is stored with its period, one of 10, 20, 50 and 100 ms. An unknown key raises ValueError and changes neither field. Selection keeps the period consistent with the key, so `period_get` is None until a speed is accepted. |
| AcquisitionRate.Select | dpscope/controller/helper/acquisition_rate.py:47-61 | The `selected_speed` setter. `SelectSpec` states it. |
| AcquisitionRate.Acquisition.constructor | dpscope/controller/helper/acquisition_rate.py:27-28 | The selection and the period start as None. |
| AcquisitionRate.Acquisition.GetSpeeds | dpscope/controller/helper/acquisition_rate.py:30-37 | `speeds` returns the four option strings in order. |
| AcquisitionRate.Acquisition.GetSelected | dpscope/controller/helper/acquisition_rate.py:39-45 | The getter returns the stored selection. |
| AcquisitionRate.Acquisition.SetSelected | dpscope/controller/helper/acquisition_rate.py:47-61 | The setter performs `Select`. |
| AcquisitionRate.Acquisition.PeriodGet | dpscope/controller/helper/acquisition_rate.py:63-68 | `period_get` returns the stored period. |

## Left out

- Serial I/O, threads, processes, `Queue` blocking and timeouts, `join`, logging and the connection locks (`_conn_lock`). The port is the in-memory `Link`, and the helpers talk to the recording fake interface. The locks only serialise exchanges, which the model performs one at a time.
- Class-level shared state. Several attributes are class attributes shared by every instance: the `_stop_command` queue, `_time_stamps`, the `gain_options` dict, the `gain`/`pregain` lists and `_voltage_stream`. The model gives each instance its own. In the source, for example, the two `GainOptions` of `GainManager` share one dictionary.
- `GainManager` (controller/helper/gain_setting.py:135-147) only builds two `GainOptions`.
- `GainSetting.add_to_gain_options` and `__init__` only forward and assign. `GainSetting.Setting` is a datatype and `GainOptions.GainOptionAdd` is the add.
- `ThreadLoop` and `ProcessLoop`, which voltage_measure.py and timer.py import, are not part of this model. Both runners are modelled by the `ConcurrentBase` scheduler.
- Import-time failures are not modelled, and each module is treated as if it loaded:
  - low.py subclasses `serial.Serial` with only `Serial` imported;
  - helper.py stacks `@abstractmethod` over `@property`.
- The low.py `DPScopeInterface` class (low.py:126-163) is not modelled beyond its `Command` class; it builds only two commands.
- VoltageMeasure.VoltageStreamer.Acquire: acquisitions are not tied to the scheduler's runs. Each call is one run of `_voltage_acquire_c`.
- Floating point is idealised as `real`. Rounding, and `float()` conversions of the period and window, are not modelled.
- Concurrent.RunCountBound: states that `n - 1` periods fit before `T`. It does not divide through to `n <= floor((T - start) / period) + 1`, which needs a positive period.
- Trigger.TriggerSettings.SetSource: sends the member's integer index. The source passes the enum member itself to `trig_source`, which `struct.pack` would refuse. This is unreachable as written, because the guard raises first.
- Trigger.TriggerSettings.SetPol: the same, for `trig_pol`.
- Poll.Poller.AwaitBlock: the source's `while not data` loop never ends if no block ever arrives. The model reads a finite script, and a used-up script ends the loop with `NoDataYet`, which is not a Python exception. `Poll.Await`, `Poll.DoStep` and `Poll.DoSpec` give that case a defined result for the same reason.
- SerialLink.Link.Write and SerialLink.Link.Read move bytes whether or not the port is open, where pyserial raises SerialException. So the methods that drive a `Link` describe an open port only: `Command.Echo`, `Command.Send`, `Command.PerformOn`, `Command.Await`, `Command.PayloadOn`, `Command.DecodeOn`, `Command.FinishOn`, `Command.Readback`, `Command.SetDac`, `Low.CmdImpl`, `Low.ReadBack` and `Low.SetDac`. The closed-port path is modelled at `Interface.DPScopeInterface` (`ClosedTransaction`, `ClosedReadback`).
- Scope.FakeScope fails a command by opcode with CommsException. It does not produce the other ways a real device can misbehave on an exchange; those are covered by `Command.Transaction` itself.

## Findings

| source | as written | input that shows it | evidently intended | confidence | as-written member | corrected member |
|---|---|---|---|---|---|---|
| dpscope/model/command.py:125-126 | the count check compares with `struct.calcsize`, bytes not fields | `trig_level(1000)` raises CommandException; `trig_level(3, 232)` raises struct.error after the opcode is written | one argument per format field | not executed | Command.HCommandNeverSucceeds | Command.TransactionByFields |
| dpscope/low.py:107-108 | the legacy `Command.__call__` calls `self.write`, which the class does not have | any call that passes the count check, e.g. `read_adc()` | write through `self._conn`, as model/command.py does | not executed | Low.LegacyCall | Command.Transaction |
| dpscope/model/command.py:185-190 | the readback request and reply go through UTF-8 | `read_back(205)` writes `17 C3 8D`; a block starting with 0x80 raises UnicodeDecodeError | raw bytes, as the commented-out `map(ord, ...)` at low.py:213 | not executed | Command.ReadbackTransaction | Command.RawReadbackTransaction |
| dpscope/model/controller/helper/__init__.py:67 | `read_volt` reads `self.USB_voltage` | `read_volt()` with a two-value ADC reply raises AttributeError | the `usb_voltage` property | not executed | Calibration.VoltageCalc.ReadVoltAsWritten | Calibration.VoltageCalc.ReadVolt |
| dpscope/model/controller/helper.py:143 | `read_volt` reads `self.USB_voltage` | any successful `read_adc` reply | the `usb_voltage` property | not executed | Calibration.LegacyVoltageCalc.ReadVoltAsWritten | Calibration.LegacyVoltageCalc.ReadVolt |
| dpscope/model/controller/helper/voltage_measure.py:26-27 | `__lt__` subscripts `self.value`, a plain int for LIMIT | `resolution = VoltageResolution.LIMIT` raises TypeError | ResolutionSettingsException | not executed | VoltageMeasure.GuardAsWrittenRaises | VoltageMeasure.SetResolutionSends |
| dpscope/model/controller/helper/trigger.py:70 | `>=` between members of an Enum with no ordering | `source = TriggerSource.auto` raises TypeError | reject exactly LIMIT with TriggerSettingsException | not executed | Trigger.GuardsAsWrittenRaise | Trigger.SetSourceSpec |
| dpscope/model/controller/helper/trigger.py:98 | the same guard for polarity | `pol = TriggerPol.rising` raises TypeError | reject exactly LIMIT | not executed | Trigger.GuardsAsWrittenRaise | Trigger.SetPolSpec |
| dpscope/model/controller/helper/poll.py:157 | `len(data)/2 + 1` is a float | any block: slicing with a float raises TypeError | `len(data)//2 + 1` | not executed | Poll.ParseFftSpec | Poll.ParseFftSpec |
