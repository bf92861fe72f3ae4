# humanscatter firmware core, modelled in Dafny

This project models the control firmware of the humanscatter v4 prototype. That firmware is the MicroPython program that:

- programs a CC2500 transceiver (the packet receiver) and an ADF4351 synthesiser (the carrier generator) over one SPI bus;
- decodes the packets the receiver captures;
- runs the polling loop that reacts to a reception and to a carrier timeout.

Modules:

- `Common`: octets, `Option`, powers of two, and `Wire8`. `Wire8` is what a `bytearray` stores for an int: its low eight bits, with no range check.
- `Bus`: the SPI1 peripheral together with the receiver's chip select and the synthesiser's latch-enable pin.
  - The class `SpiBus` records every select change, write and read in a trace.
  - `Parse` reads a trace back as the transactions each chip sees. Each driver operation is specified by the events it appends; the lemmas state what those events parse to.
- `RegisterCodec`: the arithmetic of `set_datarate_RX`, `set_filter_bandwidth_RX`, `set_freq_deviation_RX` and `set_frequency_RX`.
  - Floating point is taken as exact real arithmetic. `int()` truncates toward zero, and `int(math.log2(x))` is computed exactly.
  - A math-domain error, a division by zero and a negative shift are error outcomes.
- `Utf8Scan`: `bytes_to_utf8_string`, as a loop method proved equal to a recursive scan. The lemmas cover its round trip with the RFC 3629 encoder and its leniencies.
- `Receiver`: the SPI helpers, `start_listen_RX`/`stop_listen_RX`, the four setters, the sequencing of `setup_RX`, the `Message` class and `decode_packet_RX`.
- `Carrier`: the ADF4351 driver.
  - The register image is an `array` that `set_frequency` updates in place.
  - A word that does not fit four bytes makes `to_bytes` raise, and `set_frequency` with a zero reference divides by zero.
- `MainLoop`: the `while True` body of main.py.
  - It is a class whose fields are the loop's variables and the module attributes `event_RX`/`event_TX`, plus a log of what the loop shows (prints, LED, display).
  - A pure state machine (`Iteration`, `Loop`) specifies it over a finite script of loop passes and timer callbacks.

Values the chips send back are inputs of the model: the replies to register reads, and the status, header, window and trailer of a decode.

Where the code does something a reader might not expect, the model follows the code as written:

- The sign of the RSSI is taken from the length byte `buf[0]`, not from the RSSI byte (`Receiver.RssiSignSource`).
- The setters combine fields with `+`, not `|`, and they do not range-check. Out-of-range values go on the wire modulo 256 (`RegisterCodec.FrequencyLowByteUnderflow`, `RegisterCodec.FrequencyMdmcfg1Carry`).
- A code point above 0x10FFFF makes `chr` raise. The loop catches that error, and the receiver is then not re-armed.
- carrier.py defines no `carrier_timer` and no `event_TX`. The call at main.py:178 therefore raises, and the error is caught. Nothing ever sets `event_TX` to "timeout", so the carrier-stop branch is unreachable from the initial state (`MainLoop.InitialNeverStops`).

## Model

| member | source | states |
|---|---|---|
| Common.Pow2 | humanscatter-v4.1/firmware/receiver.py:127 | `1 << n` is a positive number |
| Common.Wire8 | humanscatter-v4.1/firmware/receiver.py:251-252 | the byte a `bytearray` stores for an int: the octet congruent to it modulo 256, with no range check, and the int itself when it is already an octet |
| Common.Repeat | humanscatter-v4.1/firmware/receiver.py:259 | the bytes clocked out by `spi.read(n, fill)`: exactly `n` copies of `fill` |
| Bus.SpiBus.constructor | humanscatter-v4.1/firmware/receiver.py:34-44 | a fresh bus has an empty trace |
| Bus.SpiBus.Select | humanscatter-v4.1/firmware/receiver.py:243 | `CS.value(0)` / `LE.value(0)` appends exactly one Low event on that line |
| Bus.SpiBus.Release | humanscatter-v4.1/firmware/receiver.py:245 | `CS.value(1)` / `LE.value(1)` appends exactly one High event |
| Bus.SpiBus.Write | humanscatter-v4.1/firmware/receiver.py:244 | `spi.write(msg)` appends one Write of exactly those bytes |
| Bus.SpiBus.Read | humanscatter-v4.1/firmware/receiver.py:259 | `spi.read(n, fill)` returns the chip's answer and records the fill byte and the answer |
| Bus.CloseFrame | humanscatter-v4.1/firmware/receiver.py:243-245 | reading up to the close of a frame always consumes input (the parser terminates) |
| Bus.ParseFrame | humanscatter-v4.1/firmware/receiver.py:247-255 | one select/deselect frame around transfers is one transaction carrying all bytes sent and received, in order |
| Bus.ParseAppend | humanscatter-v4.1/firmware/receiver.py:265-270 | operations run one after another give their transactions one after another |
| Bus.ParseConcat | humanscatter-v4.1/firmware/receiver.py:265-270 | two traces that parse give, together, their transactions concatenated |
| Bus.ParseSingle | humanscatter-v4.1/firmware/receiver.py:240-245 | a frame around one transfer is one transaction with that transfer's bytes |
| RegisterCodec.Trunc | humanscatter-v4.1/firmware/receiver.py:127-128 | `int()` of a float truncates toward zero: within one of the value, on the zero side |
| RegisterCodec.FloorLog2 | humanscatter-v4.1/firmware/receiver.py:127 | the exponent e with 2^e <= y < 2^(e+1) |
| RegisterCodec.TruncLog2 | humanscatter-v4.1/firmware/receiver.py:127 | `int(math.log2(x))`: the bracketing exponent for x >= 1, minus that of 1/x for x < 1 |
| RegisterCodec.FloorLog2Unique | humanscatter-v4.1/firmware/receiver.py:127 | any exponent that brackets y is FloorLog2(y) |
| RegisterCodec.Bracket | humanscatter-v4.1/firmware/receiver.py:128 | the mantissa step `int(a/b - base)` lies in 0..base-1 and brackets a |
| RegisterCodec.HighNibble | humanscatter-v4.1/firmware/receiver.py:130 | defines `b & 0xF0` for an octet |
| RegisterCodec.DataRateFields | humanscatter-v4.1/firmware/receiver.py:127-128 | defines `(drate_e, drate_m)`, with a math-domain error for a rate <= 0 and a negative-shift error for a negative exponent |
| RegisterCodec.DataRateWrites | humanscatter-v4.1/firmware/receiver.py:130-132 | defines the two pairs written for 0x10 and 0x11 from the byte read back |
| RegisterCodec.DataRateInRange | humanscatter-v4.1/firmware/receiver.py:125-132 | for rate*2^20 >= F_XOSC there is no error, the mantissa is an octet and (256+m)·2^e·F/2^28 <= rate < (257+m)·2^e·F/2^28 |
| RegisterCodec.DataRateRegisters | humanscatter-v4.1/firmware/receiver.py:130-132 | 0x10 keeps the high nibble read back under the exponent's low nibble; 0x11 gets the mantissa |
| RegisterCodec.DataRateShipped | humanscatter-v4.1/firmware/receiver.py:111 | 100 kbit/s gives exponent 11, mantissa 248 |
| RegisterCodec.DeviationFields | humanscatter-v4.1/firmware/receiver.py:155-156 | defines `(deviation_e, deviation_m)`, with the same error outcomes |
| RegisterCodec.DeviationWrites | humanscatter-v4.1/firmware/receiver.py:158-159 | defines the one pair written to 0x15 |
| RegisterCodec.DeviationInRange | humanscatter-v4.1/firmware/receiver.py:153-159 | for dev*2^14 >= F_XOSC the mantissa is in 0..7 and the pair brackets the deviation |
| RegisterCodec.DeviationRegister | humanscatter-v4.1/firmware/receiver.py:158-159 | DEVIATN (0x15) holds the exponent's low three bits in bits 6-4 and the mantissa in bits 2-0 |
| RegisterCodec.DeviationShipped | humanscatter-v4.1/firmware/receiver.py:110 | 347222 Hz gives exponent 7, mantissa 5, DEVIATN = 0x75 |
| RegisterCodec.BandwidthRatio | humanscatter-v4.1/firmware/receiver.py:141 | defines the argument of the log, F_XOSC / (32 bw) / log2(2.0) |
| RegisterCodec.BandwidthMantissa | humanscatter-v4.1/firmware/receiver.py:142 | defines `chanbw_m` for a given exponent |
| RegisterCodec.BandwidthFields | humanscatter-v4.1/firmware/receiver.py:141-142 | defines `(chanbw_e, chanbw_m)`: a division-by-zero error for bw = 0, a math-domain error for bw < 0, a negative-shift error for a negative exponent |
| RegisterCodec.BandwidthWrites | humanscatter-v4.1/firmware/receiver.py:144-146 | defines the one pair written to 0x10 from the byte read back |
| RegisterCodec.BandwidthExponent | humanscatter-v4.1/firmware/receiver.py:141 | for F_XOSC >= 32·bw the exponent is the e >= 0 with 2^e·32·bw <= F_XOSC < 2^(e+1)·32·bw |
| RegisterCodec.BandwidthMantissaRange | humanscatter-v4.1/firmware/receiver.py:142 | given that exponent the mantissa lies in 0..3 and brackets F_XOSC |
| RegisterCodec.BandwidthInRange | humanscatter-v4.1/firmware/receiver.py:139-146 | in range there is no error, and F/(8(5+m)2^e) < bw <= F/(8(4+m)2^e) |
| RegisterCodec.BandwidthRegister | humanscatter-v4.1/firmware/receiver.py:144-146 | 0x10 gets the exponent in bits 7-6 and the mantissa in bits 5-4, and keeps the low nibble read back |
| RegisterCodec.PackFields | humanscatter-v4.1/firmware/receiver.py:145 | the three fields of 0x10 are recovered from the packed octet |
| RegisterCodec.BandwidthShipped | humanscatter-v4.1/firmware/receiver.py:112 | 794444 Hz gives exponent 0, mantissa 0 |
| RegisterCodec.FreqWord | humanscatter-v4.1/firmware/receiver.py:168 | defines `freq`, int(frequency * 2^16 / F_XOSC) |
| RegisterCodec.ChannelSpacingMantissa | humanscatter-v4.1/firmware/receiver.py:171 | defines `channspc_m` |
| RegisterCodec.FrequencyWrites | humanscatter-v4.1/firmware/receiver.py:174-181 | defines the six pairs written from the byte read back from 0x13 |
| RegisterCodec.FreqWordBounds | humanscatter-v4.1/firmware/receiver.py:168-171 | FREQ is the floor of f·2^16/F_XOSC, and channspc_m lies in -256..-252 |
| RegisterCodec.FreqBytes | humanscatter-v4.1/firmware/receiver.py:176-178 | the masks and shifts cut FREQ into bits 22-16, 15-8 and 7-0, which reassemble it modulo 2^23 |
| RegisterCodec.FrequencyRegisters | humanscatter-v4.1/firmware/receiver.py:166-181 | the six pairs: channel 0, three FREQ bytes (the last one minus one) that reassemble FREQ, 0x13 = read & 0xF0 + 32, channspc_m in -256..-252 |
| RegisterCodec.FrequencyLowByteUnderflow | humanscatter-v4.1/firmware/receiver.py:178 | when FREQ's low byte is 0 the pair value is -1, which goes on the wire as 0xFF |
| RegisterCodec.FrequencyMdmcfg1Carry | humanscatter-v4.1/firmware/receiver.py:179 | adding 32 flips bit 5 of what was read, and leaves the octet range iff that byte is >= 0xE0 |
| RegisterCodec.FrequencyShipped | humanscatter-v4.1/firmware/receiver.py:109 | 2456597222 Hz gives FREQ 0x5E7C08, written 0x5E, 0x7C, 0x07, with channspc_m -252 |
| Utf8Scan.StepAt | humanscatter-v4.1/firmware/receiver.py:192-206 | one step takes 1 to 4 bytes that are present, giving a code point below 2^21 (below 2^16 for 1-3 bytes), or skips one byte |
| Utf8Scan.IsCont | humanscatter-v4.1/firmware/receiver.py:196 | defines a continuation byte, 0x80..0xBF |
| Utf8Scan.Payload | humanscatter-v4.1/firmware/receiver.py:197 | defines `b & 0x3F` |
| Utf8Scan.Scan | humanscatter-v4.1/firmware/receiver.py:188-207 | defines the text the scan returns, or None when `chr` raises |
| Utf8Scan.LeadWidth | humanscatter-v4.1/firmware/receiver.py:196-203 | defines the unit width a lead byte announces |
| Utf8Scan.ScanAt | humanscatter-v4.1/firmware/receiver.py:191-206 | from position i the scan is the step there followed by the scan after it; `chr` raises above 0x10FFFF |
| Utf8Scan.BytesToUtf8String | humanscatter-v4.1/firmware/receiver.py:188-207 | the while loop returns exactly the scan of the whole input (None when `chr` raises) |
| Utf8Scan.ScanLength | humanscatter-v4.1/firmware/receiver.py:188-207 | at most one character per input byte |
| Utf8Scan.ScanAscii | humanscatter-v4.1/firmware/receiver.py:193-195 | bytes up to 0x7F come out unchanged |
| Utf8Scan.ScanNoError | humanscatter-v4.1/firmware/receiver.py:202-203 | without a byte >= 0xF4 the scan never raises |
| Utf8Scan.DropsOneByte | humanscatter-v4.1/firmware/receiver.py:205-206 | a stray continuation, a byte 0xF8 or above, or a lead whose unit is cut short anywhere (end of input, or any of its next bytes not a continuation) is dropped alone and scanning resumes at the next byte |
| Utf8Scan.EncodeScalar | humanscatter-v4.1/firmware/receiver.py:196-204 | the RFC 3629 encoding of one scalar value has 1 to 4 bytes |
| Utf8Scan.EncodeLength | humanscatter-v4.1/firmware/receiver.py:196-204 | an encoded text has between 1 and 4 bytes per scalar value |
| Utf8Scan.StepEncoded | humanscatter-v4.1/firmware/receiver.py:196-204 | the scanner takes an encoded scalar value as one unit and gives that value back |
| Utf8Scan.StepTwoBytes | humanscatter-v4.1/firmware/receiver.py:196-198 | a two-byte unit decodes to its value |
| Utf8Scan.StepThreeBytes | humanscatter-v4.1/firmware/receiver.py:199-201 | a three-byte unit decodes to its value |
| Utf8Scan.StepFourFields | humanscatter-v4.1/firmware/receiver.py:202-204 | a four-byte unit decodes to its four bit fields put together |
| Utf8Scan.StepFourBytes | humanscatter-v4.1/firmware/receiver.py:202-204 | a four-byte unit of a value up to 0x10FFFF decodes to that value |
| Utf8Scan.ScanEncode | humanscatter-v4.1/firmware/receiver.py:188-207 | round trip: the scan of the RFC 3629 encoding of any text of scalar values is that text |
| Utf8Scan.Leniencies | humanscatter-v4.1/firmware/receiver.py:196-204 | an overlong NUL and a surrogate are accepted; a four-byte unit above 0x10FFFF raises |
| Receiver.PairEvents | humanscatter-v4.1/firmware/receiver.py:250-254 | one two-byte write per pair |
| Receiver.PairBytes | humanscatter-v4.1/firmware/receiver.py:250-253 | defines the pairs flattened in order |
| Receiver.StrobeEvents | humanscatter-v4.1/firmware/receiver.py:240-245 | defines the events of write_strobe_RX |
| Receiver.WriteEvents | humanscatter-v4.1/firmware/receiver.py:247-255 | defines the events of write_register_RX |
| Receiver.ReadEvents | humanscatter-v4.1/firmware/receiver.py:257-263 | defines the events of read_register_RX |
| Receiver.WriteStrobe | humanscatter-v4.1/firmware/receiver.py:240-245 | the trace grows by one CS frame holding the command byte |
| Receiver.WriteRegister | humanscatter-v4.1/firmware/receiver.py:247-255 | the trace grows by one CS frame holding one write per pair |
| Receiver.ReadRegister | humanscatter-v4.1/firmware/receiver.py:257-263 | returns the chip's two answer bytes; the trace grows by one CS frame reading them with `address + 0x80` |
| Receiver.PairEventsCarry | humanscatter-v4.1/firmware/receiver.py:250-254 | the writes of a pair list send exactly the pairs flattened and receive nothing |
| Receiver.PairBytesLayout | humanscatter-v4.1/firmware/receiver.py:251-252 | byte 2k is pair k's address and byte 2k+1 its value modulo 256 |
| Receiver.ParseStrobe | humanscatter-v4.1/firmware/receiver.py:240-245 | a strobe is one transaction sending the command byte |
| Receiver.ParseWrite | humanscatter-v4.1/firmware/receiver.py:247-255 | a register write is one transaction sending address/value pairs in order |
| Receiver.ParseRead | humanscatter-v4.1/firmware/receiver.py:257-263 | a read is one transaction that sends `address + 0x80` per byte and receives the answer |
| Receiver.StartListen | humanscatter-v4.1/firmware/receiver.py:265-270 | the trace grows by the arming events |
| Receiver.StopListen | humanscatter-v4.1/firmware/receiver.py:272-273 | the trace grows by one SIDLE strobe |
| Receiver.ListenEvents | humanscatter-v4.1/firmware/receiver.py:265-270 | defines the events of start_listen_RX |
| Receiver.ParseListen | humanscatter-v4.1/firmware/receiver.py:265-270 | arming is four transactions: SIDLE, 0x17 := 0x00, SFRX, SRX |
| Receiver.SetDataRate | humanscatter-v4.1/firmware/receiver.py:125-132 | returns the derived pairs or the error; the trace is SIDLE, then (no error) the read of 0x10 and the write |
| Receiver.SetFilterBandwidth | humanscatter-v4.1/firmware/receiver.py:139-146 | the same, for the bandwidth, reading 0x10 |
| Receiver.SetFreqDeviation | humanscatter-v4.1/firmware/receiver.py:153-159 | SIDLE, then (no error) the write of 0x15 with no read |
| Receiver.SetFrequency | humanscatter-v4.1/firmware/receiver.py:166-181 | SIDLE, the read of 0x13 and the write of the six pairs; it cannot fail |
| Receiver.SetterEvents | humanscatter-v4.1/firmware/receiver.py:125-181 | defines the events of a setter: SIDLE, then, without an error, its read and its write |
| Receiver.ParseSetter | humanscatter-v4.1/firmware/receiver.py:125-181 | a failing setter leaves only its SIDLE transaction; a succeeding one idles, reads (if it reads), then writes the pairs |
| Receiver.SetupStart | humanscatter-v4.1/firmware/receiver.py:98-109 | reset, idle, the settings table, then the frequency setter |
| Receiver.SetupRx | humanscatter-v4.1/firmware/receiver.py:98-113 | the outcome is the first setter error; the trace is the head followed by the setters that ran |
| Receiver.SetupRest | humanscatter-v4.1/firmware/receiver.py:110-113 | deviation, data rate, bandwidth, 0x10 := 0x0B, each running only if the ones before did not raise |
| Receiver.SetupRate | humanscatter-v4.1/firmware/receiver.py:111-113 | the same from the data rate on |
| Receiver.SetupBandwidth | humanscatter-v4.1/firmware/receiver.py:112-113 | the same from the bandwidth on |
| Receiver.SetupHead | humanscatter-v4.1/firmware/receiver.py:98-109 | defines the events of setup_RX up to and including the frequency setter |
| Receiver.SetupTail | humanscatter-v4.1/firmware/receiver.py:110-113 | defines the events of the remaining setters, each only if the ones before it did not raise, then 0x10 := 0x0B |
| Receiver.FirstError | humanscatter-v4.1/firmware/receiver.py:110-113 | defines the outcome of setup_RX: the first setter error |
| Receiver.SetupStopsAtError | humanscatter-v4.1/firmware/receiver.py:110-113 | setup succeeds iff all three setters do; otherwise it stops right after the failing setter's SIDLE and raises that setter's error |
| Receiver.ParseSetup | humanscatter-v4.1/firmware/receiver.py:98-113 | a full setup is fifteen transactions in a fixed order, ending with 0x10 := 0x0B |
| Receiver.SetupShipped | humanscatter-v4.1/firmware/receiver.py:98-113 | with the shipped values setup never raises, and DEVIATN, MDMCFG3/4 and FREQ get the stated values |
| Receiver.Message.constructor | humanscatter-v4.1/firmware/receiver.py:85-92 | a new Message holds the class defaults |
| Receiver.Message.View | humanscatter-v4.1/firmware/receiver.py:85-92 | defines the attributes of a Message instance as a value |
| Receiver.Fresh | humanscatter-v4.1/firmware/receiver.py:85-92 | defines the class defaults |
| Receiver.PayloadBytes | humanscatter-v4.1/firmware/receiver.py:235 | `buf[2:length+1]` with clamping is at most 60 bytes |
| Receiver.Rssi | humanscatter-v4.1/firmware/receiver.py:228-231 | defines RSSI with the sign taken from the length byte |
| Receiver.Signed | humanscatter-v4.1/firmware/receiver.py:229 | defines a byte read as two's complement |
| Receiver.DecodeView | humanscatter-v4.1/firmware/receiver.py:214-235 | defines what decode_packet_RX leaves in the message and whether `chr` raised |
| Receiver.StatusEvents | humanscatter-v4.1/firmware/receiver.py:211-213 | defines the events of the status read |
| Receiver.FifoEvents | humanscatter-v4.1/firmware/receiver.py:217-222 | defines the events of the FIFO reads |
| Receiver.DecodeEvents | humanscatter-v4.1/firmware/receiver.py:211-222 | defines the events of a decode: the status frame, then the FIFO frame unless overflow is set |
| Receiver.ReadStatus | humanscatter-v4.1/firmware/receiver.py:211-213 | returns the status answer; the trace grows by its frame |
| Receiver.ReadFifo | humanscatter-v4.1/firmware/receiver.py:217-222 | returns the window and trailer; the trace grows by one frame with three reads |
| Receiver.DecodePacket | humanscatter-v4.1/firmware/receiver.py:210-236 | the message becomes the decoded view and `raised` reports a `chr` error; the trace is the status frame and, without overflow, the FIFO frame |
| Receiver.ParseDecode | humanscatter-v4.1/firmware/receiver.py:211-222 | overflow: one status transaction only; otherwise a second transaction reading 65 bytes clocked with 0xFF |
| Receiver.DecodeOverflow | humanscatter-v4.1/firmware/receiver.py:214-215 | with overflow set only `overflow` changes |
| Receiver.DecodeFields | humanscatter-v4.1/firmware/receiver.py:225-235 | CRC_check is bit 7 and link quality bits 6-0 of the trailer's second byte; length and sequence are window[0], window[1]; data has at most 60 characters |
| Receiver.PayloadSlice | humanscatter-v4.1/firmware/receiver.py:235 | the payload is window[2..length], cut at the end of the window |
| Receiver.DecodeRoundTrip | humanscatter-v4.1/firmware/receiver.py:210-236 | a packet framed as length, sequence and UTF-8 text decodes back to that sequence number and text |
| Receiver.RssiSignSource | humanscatter-v4.1/firmware/receiver.py:228-231 | the RSSI equals the two's-complement reading iff the length byte and the RSSI byte share their top bit |
| Receiver.RssiExample | humanscatter-v4.1/firmware/receiver.py:228-231 | length 10 with RSSI byte 200 gives +30 dBm, where the two's-complement reading is -98 |
| Carrier.WordBytes | humanscatter-v4.1/firmware/carrier.py:39 | `to_bytes(4, "big")` gives four bytes |
| Carrier.WordOf | humanscatter-v4.1/firmware/carrier.py:39 | the word the chip latches from four bytes sent MSB first is b0·2^24 + b1·2^16 + b2·2^8 + b3 and fits 32 bits; WordRoundTrip and BytesRoundTrip make it the inverse of WordBytes |
| Carrier.WordRoundTrip | humanscatter-v4.1/firmware/carrier.py:39-42 | the chip latches exactly the word that was sent |
| Carrier.BytesRoundTrip | humanscatter-v4.1/firmware/carrier.py:39 | every four bytes are the encoding of their word |
| Carrier.WriteReg | humanscatter-v4.1/firmware/carrier.py:37-43 | succeeds iff the word fits 32 bits; then one LE frame with its four bytes, otherwise nothing on the bus |
| Carrier.Fits | humanscatter-v4.1/firmware/carrier.py:39 | defines the words `to_bytes(4, "big")` accepts |
| Carrier.WordEvents | humanscatter-v4.1/firmware/carrier.py:37-42 | defines the events of adf4351_write_reg |
| Carrier.ParseWord | humanscatter-v4.1/firmware/carrier.py:37-43 | a register write is one transaction on LE sending the word's bytes |
| Carrier.DownFrom | humanscatter-v4.1/firmware/carrier.py:45-48 | defines the events of setup_TX: the words from the top down, up to the first that raises |
| Carrier.FitsBelow | humanscatter-v4.1/firmware/carrier.py:45-48 | defines that no word of the image raises |
| Carrier.DownTxns | humanscatter-v4.1/firmware/carrier.py:45-48 | one transaction per word written |
| Carrier.ParseDown | humanscatter-v4.1/firmware/carrier.py:45-48 | when every word fits, the frames parse as the words in descending order |
| Carrier.DownFromStops | humanscatter-v4.1/firmware/carrier.py:47-48 | a word that does not fit stops the loop there: three events per word above it, and nothing at all when it is the top word |
| Carrier.DownFromAbove | humanscatter-v4.1/firmware/carrier.py:45-48 | before a word that does not fit, exactly the words above it go out, from the top down, one transaction each; e.g. an R0 that is too large leaves R5..R1 written |
| Carrier.ParseImage | humanscatter-v4.1/firmware/carrier.py:45-48 | setup_TX sends R5 down to R0 once each, and the chip latches exactly the image |
| Carrier.DefaultFits | humanscatter-v4.1/firmware/carrier.py:26-33 | every shipped register fits 32 bits |
| Carrier.PowerDown | humanscatter-v4.1/firmware/carrier.py:69 | defines `w & ~(3 << 3)` |
| Carrier.DividerWord | humanscatter-v4.1/firmware/carrier.py:55-60 | defines the new R0, `INT << 15` with INT = int(f_out_hz / ref_clk) |
| Carrier.Adf4351.constructor | humanscatter-v4.1/firmware/carrier.py:26-33 | the register list starts as the shipped image |
| Carrier.Adf4351.SetupTx | humanscatter-v4.1/firmware/carrier.py:45-49 | the trace grows by the words from R5 down; no error iff all fit, and the error is OverflowError |
| Carrier.Adf4351.SetFrequency | humanscatter-v4.1/firmware/carrier.py:51-61 | a zero reference raises ZeroDivisionError with nothing changed; otherwise only R0 is replaced by `INT << 15` and setup_TX runs |
| Carrier.Adf4351.StartCarrier | humanscatter-v4.1/firmware/carrier.py:63-65 | the same as setup_TX |
| Carrier.Adf4351.StopCarrier | humanscatter-v4.1/firmware/carrier.py:67-70 | one frame with R4's power bits cleared; the list is not changed |
| Carrier.DividerFields | humanscatter-v4.1/firmware/carrier.py:55-60 | R0 holds INT in bits 31-15 and zeros below, and fits iff 0 <= INT < 2^17 |
| Carrier.DividerShipped | humanscatter-v4.1/firmware/carrier.py:51-60 | 2.45 GHz from 25 MHz gives R0 = 0x00310000 |
| Carrier.PowerDownBits | humanscatter-v4.1/firmware/carrier.py:69 | bits 3-4 cleared, every other bit kept, idempotent, fits preserved |
| Carrier.PowerDownShipped | humanscatter-v4.1/firmware/carrier.py:69 | the shipped R4 powers down to 0x00AC8024 |
| Carrier.StopThenStart | humanscatter-v4.1/firmware/carrier.py:63-70 | stop sends R4 powered down; a restart resends the unchanged image with R4 as it was |
| MainLoop.CodePoints | humanscatter-v4.2/firmware/main.py:201-207 | a text literal as code points, character by character |
| MainLoop.Initial | humanscatter-v4.2/firmware/main.py:165-173 | defines the values of the events and counters when the loop is entered |
| MainLoop.BranchOf | humanscatter-v4.2/firmware/main.py:187-239 | defines which branch of the if/elif chain a pass takes |
| MainLoop.Demo | humanscatter-v4.2/firmware/main.py:199-208 | the demo substitution touches only `data` and `RSSI` |
| MainLoop.PrintRx | humanscatter-v4.1/firmware/receiver.py:275-280 | defines print_RX: a print unless CRC or overflow is set |
| MainLoop.IfDisplay | humanscatter-v4.2/firmware/main.py:214-215 | defines a display call made only when a display is present |
| MainLoop.StopEvents | humanscatter-v4.2/firmware/main.py:235 | defines the frame stop_carrier_TX sends on the shipped image |
| MainLoop.Received | humanscatter-v4.2/firmware/main.py:187-222 | defines the reception branch: the except path when the decode raises, otherwise blink, demo, print, display, re-arm, "no_reception", cnt 1 and cnt2 advanced |
| MainLoop.Iteration | humanscatter-v4.2/firmware/main.py:185-241 | defines one pass of the loop |
| MainLoop.Apply | humanscatter-v4.2/firmware/main.py:185-241 | defines one pass or one demo timer callback |
| MainLoop.Loop | humanscatter-v4.2/firmware/main.py:184-241 | defines the loop over a finite script, ending at a break |
| MainLoop.Firmware.constructor | humanscatter-v4.2/firmware/main.py:165-173 | the loop starts with "no_reception", "no_timeout", cnt 1, cnt2 0 |
| MainLoop.Firmware.Tick | humanscatter-v4.1/firmware/receiver.py:309-311 | the demo timer sets `event_RX` to "reception" and changes nothing else |
| MainLoop.Firmware.Substitute | humanscatter-v4.2/firmware/main.py:199-208 | the if/elif chain on the message equals the table-driven substitution |
| MainLoop.Firmware.Receive | humanscatter-v4.2/firmware/main.py:187-222 | the reception branch does what the pass function says, on state, log and bus |
| MainLoop.Firmware.Iterate | humanscatter-v4.2/firmware/main.py:185-241 | one pass does what the pass function says, and returns whether it broke |
| MainLoop.Firmware.Step | humanscatter-v4.2/firmware/main.py:185-241 | a timer callback or a pass, as the step function says |
| MainLoop.Firmware.Run | humanscatter-v4.2/firmware/main.py:184-241 | the loop over a script ends in the state, log and bus trace the run function gives, and reports the break |
| MainLoop.LoopUnfold | humanscatter-v4.2/firmware/main.py:185-239 | a run is its first step followed by the rest, or only that step when it breaks |
| MainLoop.TimeoutBranch | humanscatter-v4.2/firmware/main.py:233-239 | a pass breaks iff the modules are present, `event_RX` is neither value and `event_TX` is "timeout"; it then sends only R4 powered down and keeps the state |
| MainLoop.BreakIsFinal | humanscatter-v4.2/firmware/main.py:239 | after the break the rest of the script changes nothing |
| MainLoop.ApplySettled | humanscatter-v4.2/firmware/main.py:187-230 | from "reception"/"no_reception", a step keeps `event_RX` in those two values and does not break |
| MainLoop.NeverStops | humanscatter-v4.2/firmware/main.py:184-241 | from a settled `event_RX`, no run ever breaks |
| MainLoop.InitialNeverStops | humanscatter-v4.2/firmware/main.py:165-241 | started as main.py starts it, the loop never stops the carrier |
| MainLoop.RxSettled | humanscatter-v4.2/firmware/main.py:187-225 | defines the two values the firmware ever gives `event_RX` |
| MainLoop.WaitingOnce | humanscatter-v4.2/firmware/main.py:225-230 | while no message arrives the waiting notice is shown at most once, nothing goes on the bus, and only `cnt` changes |
| MainLoop.WaitUi | humanscatter-v4.2/firmware/main.py:226-229 | defines the waiting notice and its display |
| MainLoop.DecodeParse | humanscatter-v4.2/firmware/main.py:190-192 | the decode's frames as the receiver sees them |
| MainLoop.RearmParse | humanscatter-v4.2/firmware/main.py:190-218 | the decode followed by the re-arming, as transactions |
| MainLoop.Reception | humanscatter-v4.2/firmware/main.py:187-222 | a handled reception decodes, re-arms, sets "no_reception", cnt 1 and advances cnt2; a raising decode changes no state and does not re-arm |
| MainLoop.DemoShown | humanscatter-v4.2/firmware/main.py:199-215 | the displayed message carries the demo text and RSSI offset for cnt2 over the decoded fields; an overflowed decode is shown but not printed |
| MainLoop.BlinksAppend | humanscatter-v4.2/firmware/main.py:195-197 | blinks of a joined log add up |
| MainLoop.Blinks | humanscatter-v4.2/firmware/main.py:195-197 | defines the number of message LED blinks in a log |
| MainLoop.ReceivedCnt2 | humanscatter-v4.2/firmware/main.py:195-210 | a handled reception blinks once and advances cnt2; a raising one does neither |
| MainLoop.OtherCnt2 | humanscatter-v4.2/firmware/main.py:225-239 | the other branches keep cnt2 and do not blink |
| MainLoop.ApplyCnt2 | humanscatter-v4.2/firmware/main.py:195-210 | one step keeps cnt2 in 0..2 and advances it by its blinks, modulo 3 |
| MainLoop.Tracks | humanscatter-v4.2/firmware/main.py:210 | defines cnt2 after a run as its start advanced by the blinks, modulo 3 |
| MainLoop.Cnt2Cycles | humanscatter-v4.2/firmware/main.py:184-241 | over a whole run cnt2 stays in 0..2 and ends at its start plus the number of receptions, modulo 3 |

## Left out

- The display module, the LEDs' pins (a blink is a log entry), VBUS sensing, the import guards' failure paths, and the construction of the SPI and Pin objects are not part of this model. display.py is not part of this model.
- Prints and `config_prints` output are not modelled. The one print that matters to the loop, `print_RX`, is a log entry produced iff `CRC` and `overflow` are clear.
- Sleeps and all timing are not modelled. Timers are inputs: `dummy_event_update` runs only between loop passes (`MainLoop.Firmware.Tick`), never in the middle of one.
- `set_irq_RX` and `interrupt_handler_RX` are not modelled. setup_RX arms the interrupt (receiver.py:108), but the handler writes the global `event`, which nothing reads, so the loop is unaffected.
- `dummy_message_generator` (the timer set-up itself), `test_RW`, `print_registers_RX` and `test_adf4351` are left out. They are debug helpers that none of the modelled operations call.
- `carrier_timer` does not exist in carrier.py. Its call at main.py:178 raises and is caught, so no timer ever sets `event_TX` to "timeout".
  - The loop model still takes any `event_TX`.
  - `MainLoop.InitialNeverStops` shows that the initial state can never reach the break.
- The `except` around the whole loop (main.py:243-245) and its safe-idle mode are left out. No exception reaches it in this model: the one that can arise, from `chr`, is caught inside the reception branch.
- Floating-point rounding is not modelled. The register derivations use exact reals.
- `to_bytes` follows CPython: it raises OverflowError for a word outside 0..2^32-1.
- A failure of the SPI peripheral itself, and a radio or chip-select object that is `None`, are not modelled.
- `while True` is modelled by finite scripts of passes and timer callbacks (`MainLoop.Loop`).
- `decode_packet_RX` computes `size` from the status byte but never uses it, so it is not modelled.
- The receiver reads of a setter return whatever the chip answers. The model does not tie these answers to earlier writes.
