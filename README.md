# Phosphor SID player: a verified model of its core

Phosphor plays Commodore 64 music files (PSID and RSID tunes). It runs the
tune's 6502 code against an emulated C64 memory bus, captures the writes the
tune makes to the SID sound chip, and sends them, stamped with cycle
deltas, either to a USBSID-Pico board (through a small root daemon that
owns the USB device) or to a software SID emulation. Around the player sit
a playlist with repeat and shuffle, the HVSC Songlength database, M3U and
PLS playlist files, a settings file, a favourites list, a search filter and
an update check.

This Dafny project models that core and proves properties of it:

- **USB bridge protocol** (`bridge_wire`, `bridge_client`, `bridge_daemon`,
  `bridge_session`): the five-byte ring records and one-byte commands the
  player sends over the socket, the reply format, the daemon's per-session
  state machine, and the packing of buffered writes into 64-byte USB
  packets of at most 15 tuples. The encode/decode round trip, the packet
  layout and the preservation of write order from client to USB packets
  are proved.
- **Player write pipeline** (`sid_mapper`, `player_memory`, `player_cia`,
  `player_vic`, `player_rsid_bus`, `player_control`, `kernal_stubs`): SID
  address mapping and write capture on the PSID and RSID buses, the
  simplified CIA and VIC of the PSID bus, the KERNAL stubs, the jiffy
  clock, the IRQ/NMI stack frames, pausing, and the conversion of absolute
  cycle stamps into 16-bit deltas with optional mono mirroring.
- **PSID/RSID header** (`sid_file`): parsing, the payload load address,
  the version-gated fields and the extra SID addresses.
- **Cycle-level C64 core** (`emu_*`): the banks (system RAM, colour RAM,
  ROMs, the processor port, the I/O router, the SID banks), the PLA/MMU
  page mapping, the CIA (timers, interrupt latch, BCD time-of-day clock,
  serial shift register), the VIC-II (raster interrupts, bad lines, sprite
  DMA counters, light pen), the event scheduler and the machine that wires
  them together.
- **Software SID sink** (`sid_emulated`): register routing to up to three
  chips, frame-cycle accounting, the RC output filter, mixing and the
  bounded audio buffer.
- **Library logic** (`playlist`, `songlength`, `playlist_files`, `config`,
  `ui_filter`, `app`, `version_check`): playlist navigation and removal, the
  Songlength and playlist-file readers, the M3U writer and its read-back,
  the settings reader and writer with their round trip, the favourites
  set, the search filter, the `--sid4` address parser, sub-tune stepping,
  automatic advance and semantic version comparison.

The RSID bus of `src/player/rsid_bus.rs` is modelled with a corrected
capture guard: it captures every I/O-page address the SID mapper maps, as
the PSID bus does. The guard as written, which captures only
$D400-$D7FF, is `PlayerRsidBus.CaptureAsWritten`, compared with the
corrected one under Findings. The discrepancy is latent in the built
program: `src/player/mod.rs:5-6` declares only the `memory` and `sid_file`
modules, so RSID tunes play on the PSID bus (`C64Memory`,
`src/player/mod.rs:808` and `:832`).

`common` and `text` hold machine words and the ASCII string operations of
Rust's standard library that the parsers use.

Where the source updates state in place, the model does too: classes with
fields, arrays for fixed-size buffers, and methods with `modifies` clauses
proved against specification functions. Pure parsing and comparison code
is modelled as functions and lemmas.

## Model

| member | source | states |
|---|---|---|
| BridgeWire.RingRecordsAt | src/usb_bridge.rs:101-108 | record k of the `ring_cycled` buffer sits at offset 5k and is the five bytes of write k |
| BridgeWire.RecordDecodes | src/bin/usbsid-bridge.rs:170-178 | a record starts with `CMD_RING` and its four argument bytes decode to the same (register, value, cycles) tuple |
| BridgeClient.DecodeReply | src/usb_bridge.rs:50-68 | a reply succeeds exactly when the first byte is `RESP_OK` (consuming one byte); an empty inbox is "disconnected"; an error message is the `len` bytes after the length byte |
| BridgeClient.EncodeRing | src/usb_bridge.rs:101-109 | the buffer has 5n+1 bytes, record k at offset 5k carries write k, and the last byte is `CMD_FLUSH` |
| BridgeClient.RecordsSnoc | src/usb_bridge.rs:102-108 | one more write appends exactly its record to the buffer |
| BridgeClient.BridgeDevice.constructor | src/usb_bridge.rs:33-43 | a new connection has sent nothing |
| BridgeClient.BridgeDevice.ReadResponse | src/usb_bridge.rs:50-68 | the result is the decoded reply, its bytes are consumed and nothing is sent |
| BridgeClient.BridgeDevice.Init | src/usb_bridge.rs:72-75 | sends `CMD_INIT` and returns the daemon's reply |
| BridgeClient.BridgeDevice.SetClockRate | src/usb_bridge.rs:77-80 | sends `CMD_CLOCK` with 1 for PAL and 0 for NTSC, and reads one reply |
| BridgeClient.BridgeDevice.Reset | src/usb_bridge.rs:82-85 | sends `CMD_RESET` and reads one reply |
| BridgeClient.BridgeDevice.SetStereo | src/usb_bridge.rs:87-90 | sends `CMD_STEREO` with the mode's low eight bits and reads one reply |
| BridgeClient.BridgeDevice.Write | src/usb_bridge.rs:92-94 | sends `CMD_WRITE`, register, value, and reads no reply |
| BridgeClient.BridgeDevice.RingCycled | src/usb_bridge.rs:96-113 | sends nothing for no writes, otherwise every write's record in order and one `CMD_FLUSH`; no reply is read |
| BridgeClient.BridgeDevice.Flush | src/usb_bridge.rs:115-118 | sends a lone `CMD_FLUSH` |
| BridgeClient.BridgeDevice.Mute | src/usb_bridge.rs:120-123 | sends `CMD_MUTE` and reads one reply |
| BridgeClient.BridgeDevice.Close | src/usb_bridge.rs:125-128 | sends `CMD_CLOSE` and reads one reply |
| BridgeClient.BridgeDevice.Shutdown | src/usb_bridge.rs:130-133 | sends `CMD_QUIT` and reads no reply |
| BridgeClient.BridgeDevice.Drop | src/usb_bridge.rs:136-140 | dropping the device sends `CMD_QUIT` |
| BridgeDaemon.ErrReply | src/bin/usbsid-bridge.rs:59-65 | `send_err` writes `RESP_ERR`, a length of at most 255, and that many leading message bytes |
| BridgeDaemon.ChunkBytesAt | src/bin/usbsid-bridge.rs:80-85 | tuple i of a chunk lies at bytes 4i..4i+3 as register, value, cycles high, cycles low |
| BridgeDaemon.ChunkDecodes | src/bin/usbsid-bridge.rs:80-85 | reading a chunk's bytes four at a time gives back the chunk |
| BridgeDaemon.PacketAt | src/bin/usbsid-bridge.rs:77 | packet j carries the j-th chunk of at most 15 tuples |
| BridgeDaemon.PacketLayout | src/bin/usbsid-bridge.rs:77-87 | there are ceil(n/15) packets; packet j is a header byte followed by its k tuples, 1+4k bytes long |
| BridgeDaemon.HeaderValue | src/bin/usbsid-bridge.rs:78-79 | the header of a packet of k tuples is the cycled-write opcode in the top two bits with 4k below, i.e. 0x80 + 4k |
| BridgeDaemon.PacketCount | src/bin/usbsid-bridge.rs:77 | a buffer of n tuples gives (n + 14) / 15 packets |
| BridgeDaemon.PacketsRoundTrip | src/bin/usbsid-bridge.rs:70-89 | the tuples of all packets, concatenated, are the buffer in order: nothing is lost, duplicated or reordered |
| BridgeDaemon.FlushRingBuf | src/bin/usbsid-bridge.rs:70-89 | the packets handed to `single_write`, filled through the 64-byte packet array, are exactly the chunked packets of the buffer |
| BridgeDaemon.FillPacket | src/bin/usbsid-bridge.rs:78-86 | the first 1+4k bytes of the packet array are the header and the chunk's tuples |
| BridgeDaemon.FillTuple | src/bin/usbsid-bridge.rs:81-84 | writing tuple i extends the packet prefix by exactly that tuple's four bytes |
| BridgeDaemon.Step | src/bin/usbsid-bridge.rs:99-227 | each turn of the read loop consumes at least one input byte |
| BridgeDaemon.HandleClient | src/bin/usbsid-bridge.rs:91-237 | the replies written and the USB calls made are those of the whole-session function |
| BridgeSession.OkReplyDecodes | src/bin/usbsid-bridge.rs:54-57 | `send_ok` is read back by `read_response` as success, consuming one byte |
| BridgeSession.ErrReplyDecodes | src/bin/usbsid-bridge.rs:59-65 | `send_err` is read back as the message cut to 255 bytes, consuming exactly the reply |
| BridgeSession.RingRecordsBuffer | src/bin/usbsid-bridge.rs:170-178 | the client's ring records are buffered by the daemon as their tuples, in order, with no reply and no device call |
| BridgeSession.StepRing | src/bin/usbsid-bridge.rs:170-178 | one `CMD_RING` turn appends the decoded tuple and continues |
| BridgeSession.RingCycledDelivers | src/usb_bridge.rs:96-113 | a `ring_cycled` buffer received by the daemon with a device open reaches the device as the packets of exactly those writes |
| BridgeSession.StepFlush | src/bin/usbsid-bridge.rs:181-187 | `CMD_FLUSH` with a device open sends the buffer's packets and empties the buffer |
| BridgeSession.WriteOrderPreserved | src/bin/usbsid-bridge.rs:105-187 | after a successful open, the device receives the client's writes in order |
| BridgeSession.InitIdempotent | src/bin/usbsid-bridge.rs:106-109 | `CMD_INIT` with a device already open replies OK and does not reopen |
| BridgeSession.InitFailureReported | src/bin/usbsid-bridge.rs:117-121 | a failed open replies with "USB init failed: " and the reason, and leaves no device |
| BridgeSession.CloseVersusQuit | src/bin/usbsid-bridge.rs:196-235 | `CMD_CLOSE` mutes, resets and closes once and replies; `CMD_QUIT` closes, gives no reply, and the clean-up after the loop closes a second time |
| BridgeSession.FlushWithoutDevice | src/bin/usbsid-bridge.rs:181-187 | `CMD_FLUSH` without a device discards the buffer and calls nothing |
| BridgeSession.ClientCommandsDecode | src/bin/usbsid-bridge.rs:125-168 | the client's clock, stereo and write commands are carried out by the daemon as the matching device call |
| SidFile.NumSids | src/player/sid_file.rs:27-29 | one chip plus one per non-zero extra address: 1 exactly when neither is set, 3 exactly when both are |
| SidFile.FrameUs | src/player/sid_file.rs:42-48 | a PAL frame is exactly 1/50 s; an NTSC frame is within a microsecond per frame of 1/60 s |
| SidFile.CutAtNul | src/player/sid_file.rs:71-75 | the text is the longest NUL-free prefix of the field: the byte after it, if any, is NUL |
| SidFile.ReadText | src/player/sid_file.rs:71-75 | a text field yields at most 32 bytes |
| SidFile.DecodeSidAddrByteRange | src/player/sid_file.rs:78-84 | the byte names a chip exactly when it is even, at least $42 and at most $7F or at least $E0; the chip then lies on a 32-byte boundary in $D420-$DFE0 and the byte is recovered from its address |
| SidFile.ParseHeader | src/player/sid_file.rs:119-163 | under $76 bytes is "too small"; the header parses exactly when the magic is PSID or RSID; `is_rsid` exactly when the magic is RSID; texts are at most 32 bytes |
| SidFile.LoadSid | src/player/sid_file.rs:89-116 | a header error is passed on; a loaded file keeps the raw bytes, and its payload is what follows the data offset, less the two little-endian load-address bytes when the header's load address is 0; otherwise the refusal is "data offset past end" or "no embedded load address" for exactly those cases |
| SidFile.LoadPayload | src/player/sid_file.rs:91-115 | the payload split and the two refusals of `load_sid` for a given header |
| SidFile.HeaderRoundTrip | src/player/sid_file.rs:119-163 | every header a writer can lay out in $7C bytes parses back to itself |
| SidFile.TextRoundTrip | src/player/sid_file.rs:71-75 | a NUL-padded text field is read back as its text |
| SidFile.NumbersRoundTrip | src/player/sid_file.rs:63-69 | every big-endian numeric field is read back from its offset |
| SidFile.SpeedRoundTrip | src/player/sid_file.rs:67-69 | the 32-bit speed word is read back from $12 |
| SidFile.WordRoundTrip | src/player/sid_file.rs:63-65 | a big-endian word written at an offset is read back |
| SidFile.SpeedSplit | src/player/sid_file.rs:67-69 | joining the four bytes of a word, most significant first, gives the word |
| SidFile.MagicParsed | src/player/sid_file.rs:124-129 | a PSID or RSID header parses with its magic, and `is_rsid` exactly for RSID |
| SidFile.NumbersParsed | src/player/sid_file.rs:146-155 | the parsed numeric fields are the written ones |
| SidFile.TextsParsed | src/player/sid_file.rs:156-158 | the parsed name, author and released texts are the written ones |
| SidFile.FlagsParsed | src/player/sid_file.rs:134-143 | the parsed video standard and extra SID addresses are the written ones |
| SidFile.PalParsed | src/player/sid_file.rs:131-136 | a v1 header is PAL; from v2 the flags word decides |
| SidFile.ExtraParsed | src/player/sid_file.rs:138-143 | SID2 and SID3 are read back from $7A and $7B |
| SidFile.TextsRoundTrip | src/player/sid_file.rs:156-158 | the three text fields written are read back |
| SidFile.MagicRoundTrip | src/player/sid_file.rs:124 | the written magic is the first four bytes |
| SidFile.ParseV2 | src/player/sid_file.rs:130-155 | a header of at least $7C bytes with a valid magic has every numeric field at its fixed big-endian offset |
| SidFile.ParseV2Texts | src/player/sid_file.rs:156-158 | the texts are the NUL-cut fields at $16, $36 and $56 |
| SidFile.ParseV2Pal | src/player/sid_file.rs:131-136 | `is_pal` is the flags test from version 2, true below |
| SidFile.ParseV2Extra | src/player/sid_file.rs:138-143 | SID2 is decoded only from version 3 and SID3 only from version 4 |
| SidFile.FlagsRoundTrip | src/player/sid_file.rs:135-136 | the flags byte written for the video standard reads back as that standard |
| SidFile.ExtraBytes | src/player/sid_file.rs:139-142 | the extra SID bytes sit at $7A and $7B |
| SidFile.EmbeddedLoadAddress | src/player/sid_file.rs:97-108 | a header with load address 0 followed by a little-endian address and a program loads that program at that address |
| SidFile.LoadEmbedded | src/player/sid_file.rs:97-103 | the embedded address is little-endian and the program starts after it |
| SidFile.ParsePrefix | src/player/sid_file.rs:119-163 | the parser reads only the first $7C bytes: what follows does not change the header |
| SidMapping.NewMapper | src/player/memory.rs:20-23 | one range per base, in order, from the base to base + $1F in wrapping `u16` arithmetic; the mapper's SID count is the number of bases |
| SidMapping.MapSpec | src/player/memory.rs:20-33 | an address maps exactly when some base's 32-byte window holds it, and then to the register of the FIRST such base: slot × $20 plus the offset, in wrapping `u8` arithmetic; a base above $FFE0 has no window, because its end wraps below its start |
| SidMapping.MapFromSpec | src/player/memory.rs:26-32 | the search from a slot on finds the first window holding the address |
| SidMapping.SlotRegBound | src/player/memory.rs:29 | with at most four SIDs the register is exactly slot × $20 + offset, below $80 |
| SidMapping.MapSidWriteSpec | src/player/rsid_bus.rs:292-302 | mono capture takes exactly $D400-$D7FF and keeps the low five address bits; otherwise the mapper decides; every captured register fits the 128-byte shadow |
| SidMapping.SidReadSeed | src/player/rsid_bus.rs:352-365 | only an OSC3 read advances the noise generator; the state stays a `u32` |
| SidMapping.Osc3ReadSpec | src/player/rsid_bus.rs:354-359 | the OSC3 read steps the generator to (seed × 1103515245 + 12345) mod 2^32 and returns bits 16-23 of the new state |
| SidMapping.WindowRange | src/player/memory.rs:21-28 | the range check `base <= addr <= base + $1F` (end wrapped in `u16`) holds exactly for the addresses of the base's window, and for none when the base is above $FFE0 |
| SidMapping.HighBaseClaimsNothing | src/player/memory.rs:21-28 | a SID base above $FFE0 gets an end below its start and maps no address |
| KernalStubs.Patch | src/player/memory.rs:933-1014 | patching keeps the image's length |
| KernalStubs.PatchRts | src/player/memory.rs:941-949 | every listed jump-table entry holds RTS and every other byte is unchanged |
| KernalStubs.WriteRun | src/player/memory.rs:962 | a `copy_from_slice` run puts its bytes at its addresses and changes nothing else |
| KernalStubs.PatchStubs | src/player/rsid_bus.rs:93-151 | the patched image is the original with the RTS stubs and then every byte run written in source order, later runs winning |
| KernalStubs.LayerStep | src/player/memory.rs:951-1013 | one more run on top: its bytes win and every other byte is as before |
| KernalStubs.VectorsInstalled | src/player/memory.rs:1007-1013 | the hardware vectors point NMI at $FE43, RESET at $E000 and IRQ at $FF48 |
| KernalStubs.RtsStubsInstalled | src/player/memory.rs:941-949 | no later run overwrites a jump-table RTS: each listed entry still holds RTS |
| KernalStubs.PatchSpec | src/player/memory.rs:933-1014 | the patched image holds the stub byte at every stub address and the original byte everywhere else, so tune data at $E000+ survives outside the stubs |
| KernalStubs.PatchedImage | src/player/memory.rs:1017-1090 | a patched image, RAM or ROM overlay, vectors IRQ through $FF48 and NMI through $FE43, and every jump-table entry holds RTS |
| KernalStubs.NoStubBelowKernal | src/player/memory.rs:933-1014 | no stub lies below $E000 |
| PlayerCia.CiaTimer.constructor | src/player/memory.rs:59-67 | counter and latch $FFFF; stopped; continuous; no underflow |
| PlayerCia.CiaTimer.Tick | src/player/memory.rs:69-96 | a stopped timer reports nothing and changes nothing; with no more cycles than the counter it only counts down; a one-shot timer fires once, stops and reloads; a free-running one fires `PeriodicFires` times and keeps the counter `PeriodicCounter` leaves; latch and mode never change |
| PlayerCia.FiresPositive | src/player/memory.rs:70-96 | a timer reports an underflow exactly when it runs and gets more cycles than its counter holds |
| PlayerCia.PeriodicAccounting | src/player/memory.rs:78-93 | every cycle is accounted once: first underflow counter + 1 cycles, each further one latch + 1, and the rest lowers the reloaded counter, which stays within the latch |
| PlayerCia.CiaTimer.TickOnce | src/player/memory.rs:98-115 | a running timer at zero fires, reloads and stops if one-shot; otherwise it counts down by one; a stopped timer is unchanged |
| PlayerCia.CiaTimer.WriteLo | src/player/memory.rs:117-119 | only the latch's low byte is replaced |
| PlayerCia.CiaTimer.WriteHi | src/player/memory.rs:121-126 | only the latch's high byte is replaced; a stopped timer reloads its counter |
| PlayerCia.CiaTimer.WriteControl | src/player/memory.rs:128-139 | bit 0 runs and bit 3 selects one-shot; the counter reloads on the force-load bit or when a stopped timer starts, and is kept otherwise |
| PlayerCia.BcdIncSpec | src/player/memory.rs:145-159 | on two-digit BCD bytes `bcd_inc` is decimal increment, with 0 past `max` |
| PlayerCia.BcdIncValueSpec | src/player/memory.rs:146-159 | the same for the integer form used inside the proofs, with the result at most 100 |
| PlayerCia.BcdIncResult | src/player/memory.rs:147-154 | the nibble carry past 9 gives the next high nibble and a zero low nibble |
| PlayerCia.BcdOrder | src/player/memory.rs:154 | comparing BCD bytes compares the numbers they hold |
| PlayerCia.BcdIncStaysValid | src/player/memory.rs:146-159 | a valid digit pair not above `max` becomes 0 or the next number; never above `max` |
| PlayerCia.ToBcdSpec | src/player/memory.rs:146-159 | the BCD encoding of a number below 100 reads back as that number |
| PlayerCia.TodAdvanceValid | src/player/memory.rs:280-294 | the TOD clock stays valid BCD time; below 100000 accumulated cycles only the accumulator grows; otherwise it loses 100000 and tenths step modulo 10 |
| PlayerCia.TodCarryValid | src/player/memory.rs:286-293 | the carry from tenths into seconds, minutes and hours keeps them valid |
| PlayerCia.TodStep | src/player/memory.rs:280-294 | the TOD step of `tick` computes `TodAdvance` |
| PlayerCia.IcrAfterSpec | src/player/memory.rs:250-272 | ICR bits 0 and 1 gain the timers that fired; bits 2-7 are untouched |
| PlayerCia.RaiseIcr | src/player/memory.rs:250-272 | sets the ICR flags as `IcrAfter` says |
| PlayerCia.RaiseLine | src/player/memory.rs:275-277 | raises the interrupt line once an enabled source has fired; never lowers it |
| PlayerCia.DrivePb6 | src/player/memory.rs:252-262 | PB6 flips once per timer A underflow in toggle mode and is high in pulse mode |
| PlayerCia.Toggled | src/player/memory.rs:255-257 | n flips of PB6 flip it exactly when n is odd |
| PlayerCia.DrivePb7 | src/player/memory.rs:265-272 | PB7 flips on a timer B underflow in toggle mode and is high in pulse mode |
| PlayerCia.PortValueSpec | src/player/memory.rs:363 | output bits come from the port register and input bits from the external lines |
| PlayerCia.PortBValueSpec | src/player/memory.rs:364-383 | PB0-PB5 are the port value; PB6 and PB7 show the timer outputs when CRA or CRB bit 1 routes them there |
| PlayerCia.IcrValueSpec | src/player/memory.rs:397-402 | an ICR read shows the five flags; bits 5-6 are clear; bit 7 is set exactly while the line is up |
| PlayerCia.MaskAfterSpec | src/player/memory.rs:336-341 | the selected mask bits take bit 7 of the value; the others are kept |
| PlayerCia.UpdateMask | src/player/memory.rs:336-341 | updates the mask as `MaskAfter` says |
| PlayerCia.CounterBytes | src/player/memory.rs:388-391 | the counter's two read-back bytes give the counter back |
| PlayerCia.StaleClearedSpec | src/player/memory.rs:308-316 | a stopped timer's ICR flag is cleared; every other flag is kept |
| PlayerCia.StaleClear | src/player/memory.rs:309-316 | clears the flags as `StaleCleared` says |
| PlayerCia.KeepLine | src/player/memory.rs:318-320 | the line drops when no enabled source is pending and is kept otherwise |
| PlayerCia.Cia.constructor | src/player/memory.rs:194-219 | masks and flags clear; line low; ports $FF; directions input; PB6 and PB7 high; TOD at 1:00:00.0; both timers stopped at $FFFF |
| PlayerCia.Cia.SetupRsidDefaults | src/player/memory.rs:221-229 | timer A free-running from latch $4025 (PAL) or $4295 (NTSC); CRA $01; ICR mask $01; timer B unchanged |
| PlayerCia.Cia.Tick | src/player/memory.rs:232-297 | timer A ends where a tick of the cycles leaves it and timer B where a tick of the cycles, or of A's underflow count in cascade mode, leaves it; ICR bits 0 and 1 set for the timers that fired; the line raised when an enabled source is pending; PB6 and PB7 toggled as CRA and CRB say; the TOD advanced by the cycles; the result says whether a timer fired |
| PlayerCia.Cia.TickB | src/player/memory.rs:236-246 | timer B underflows exactly as `BFired` says, for both input sources |
| PlayerCia.Cia.CascadeB | src/player/memory.rs:237-243 | in cascade mode timer B gets one count per timer A underflow |
| PlayerCia.Cia.Read | src/player/memory.rs:361-407 | returns the register `Peek` shows; reading $0D acknowledges every flag and drops the line; other reads change nothing |
| PlayerCia.Cia.Write | src/player/memory.rs:323-358 | each offset updates exactly its register: ports and directions; a latch low byte; a latch high byte reloading a stopped timer; the TOD registers as written; the ICR mask with the line raised when an enabled source is pending; CRA/CRB without the strobe bit, the timer's control reloading it on force-load or on a start; the cascade bit; other offsets change nothing |
| PlayerCia.Cia.WritePort | src/player/memory.rs:325-328 | $00-$03 store into the port and direction registers |
| PlayerCia.Cia.WriteTimer | src/player/memory.rs:329-332 | $04-$07 replace one latch byte of one timer |
| PlayerCia.Cia.WriteTod | src/player/memory.rs:333-336 | $08-$0B store into the TOD registers as written |
| PlayerCia.Cia.WriteInterruptControl | src/player/memory.rs:337-356 | $0D updates the mask and may raise the line; $0E/$0F set the control registers and timers; $0C is ignored |
| PlayerCia.Cia.ClearStaleInts | src/player/memory.rs:308-321 | a stopped timer loses its ICR flag and underflow flag; the line stays up only while an enabled source is pending |
| PlayerCia.CascadeMatchesTicked | src/player/memory.rs:237-243 | counting k timer A underflows one `tick_once` at a time leaves timer B exactly where a k-cycle `tick` would |
| PlayerCia.TickedStep | src/player/memory.rs:69-115 | one `tick_once` count after n cycles is the `tick` of n + 1 cycles |
| PlayerCia.PeriodicStep | src/player/memory.rs:78-93 | a free-running timer past its first underflow counts down by one per cycle and reloads from the latch at zero |
| PlayerCia.Cia.WriteMask | src/player/memory.rs:337-345 | $0D: bit 7 set adds the written sources to the mask and clear removes them; the line goes up when an enabled source is already pending and is never dropped; nothing else changes |
| PlayerCia.Cia.WriteCra | src/player/memory.rs:346-349 | $0E: CRA holds the byte without its strobe bit and timer A takes the control write; nothing else changes |
| PlayerCia.Cia.WriteCrb | src/player/memory.rs:350-355 | $0F: CRB holds the byte without its strobe bit, bit 6 chooses cascade counting and timer B takes the control write; nothing else changes |
| PlayerCia.Cia.TickTimers | src/player/memory.rs:232-247 | timer A ticks the cycles and reports its underflow count; timer B ticks the cycles, or timer A's underflows in cascade mode, and reports whether it underflowed |
| PlayerVic.YScrollRange | src/player/memory.rs:473 | the fine scroll taken from $D011 is 0-7 |
| PlayerVic.LinesSpec | src/player/memory.rs:481-510 | after n lines the raster is n lines on modulo the frame; the new-frame flag is set exactly when the frame end was passed; the compare state tells whether the current line is the compare line; 40 cycles are stolen per badline passed |
| PlayerVic.LinesHit | src/player/memory.rs:496-509 | the raster flag is raised exactly when one of the lines is the compare line and its compare state was not already set |
| PlayerVic.ModSucc | src/player/memory.rs:483-488 | the raster step wraps to 0 at the frame end |
| PlayerVic.CountSplit | src/player/memory.rs:471-475 | badline counts over adjacent ranges add up |
| PlayerVic.BadlinesNoWrap | src/player/memory.rs:481-493 | lines that stay inside the frame are counted as a plain range |
| PlayerVic.BadlinesWrap | src/player/memory.rs:481-493 | lines that pass the frame end are counted as the rest of this frame plus the start of the next |
| PlayerVic.BlockOfEight | src/player/memory.rs:471-475 | an aligned block of eight lines inside the DMA window holds one badline when the display is on and none when off |
| PlayerVic.WindowCount | src/player/memory.rs:471-475 | k blocks from line $30 hold k badlines when the display is on |
| PlayerVic.NoneOutside | src/player/memory.rs:471-475 | no badline lies outside lines $30-$F7 |
| PlayerVic.FrameBadlines | src/player/memory.rs:471-493 | a whole frame passes 25 badlines with the display on and none with it off, from any start line |
| PlayerVic.RaiseRaster | src/player/memory.rs:502-507 | the status gains bit 0 when the compare line was reached and bit 7 when that raised the line |
| PlayerVic.AckStatusSpec | src/player/memory.rs:554-560 | acknowledged bits are cleared and others kept; bit 7 survives only while a source bit is left |
| PlayerVic.Acknowledge | src/player/memory.rs:554-560 | computes the acknowledged status as `AckStatus` says |
| PlayerVic.RasterReadBack | src/player/memory.rs:517-525 | $D011 bit 7 and $D012 give the raster line back; the other $D011 bits read as written |
| PlayerVic.CompareWrites | src/player/memory.rs:545-553 | writing $D011 then $D012 sets the compare line to the nine bits written, whatever it held before |
| PlayerVic.ScanLines | src/player/memory.rs:481-510 | the line loop runs `Scan` and leaves the accumulator at the total modulo the line length; the raster stays on screen |
| PlayerVic.Vic.constructor | src/player/memory.rs:445-469 | PAL 63 cycles and 312 lines; NTSC 65 and 263; compare line $137; $D011 $1B; the five default shadow registers; all others zero |
| PlayerVic.Vic.Tick | src/player/memory.rs:477-511 | raster, compare state, stolen cycles and new-frame flag follow `Scan` over the accumulated cycles; the interrupt fires exactly when the flag was raised with the interrupt enabled; the line latches; the accumulator keeps the remainder |
| PlayerVic.Vic.Write | src/player/memory.rs:539-574 | $00-$2E are shadowed; $11 and $12 set the control byte and the compare line's high bit and low byte; $19 acknowledges status; $1A enables the interrupt and raises the line at once when the flag is pending; nothing else changes |
| PlayerMemory.TickJiffy | src/player/memory.rs:755-765 | the 24-bit jiffy clock at $A0-$A2 goes up by one modulo 2^24; no other RAM byte changes |
| PlayerMemory.JiffyStep | src/player/memory.rs:756-764 | the three wrapping increments add one to the 24-bit value; a byte carries only when the one below wrapped to 0 |
| PlayerMemory.JiffyCarry | src/player/memory.rs:756-764 | carrying through three base-256 digits is adding one modulo 2^24 |
| PlayerMemory.InstallTrampoline | src/player/memory.rs:736-744 | `JSR target` then `JMP` to its own address at `at`; nothing else changes |
| PlayerMemory.SetHwVector | src/player/memory.rs:773-782 | the vector lands little-endian in RAM and from $E000 up in the overlay too; no other byte changes |
| PlayerMemory.Load | src/player/memory.rs:721-725 | RAM from `addr` holds the data, cut at the top of memory; everything around it is kept |
| PlayerMemory.WriteThenRead | src/player/memory.rs:811-927 | a byte stored where RAM or the overlay answers is what the next read there returns, whichever is banked in |
| PlayerMemory.OpcodeByteMatchesBus | src/player/memory.rs:604-616 | opcode fetches see what bus reads see, except inside a visible I/O window, where they see RAM |
| PlayerMemory.BootImage | src/player/memory.rs:663-689 | power-on port $37 with KERNAL and I/O visible; the PAL flag at $02A6; soft vectors $EA31, $EA81 and $FE72; hardware IRQ and NMI vectors at the stub entries |
| PlayerMemory.BootRam | src/player/memory.rs:664-689 | the power-on RAM image with the RAM stubs installed |
| PlayerMemory.CopyKernal | src/player/memory.rs:691-693 | the overlay starts as a copy of RAM $E000-$FFFF |
| PlayerMemory.NewCias | src/player/memory.rs:695-702 | CIA 1 port A all outputs; CIA 2 port A $3F outputs driving $17; all four timers distinct |
| PlayerMemory.RamStubs | src/player/memory.rs:1017-1090 | the stubbed image is again 64 KiB |
| PlayerMemory.InstallRamStubs | src/player/memory.rs:1017-1090 | the RAM becomes `RamStubs` of what it held |
| PlayerMemory.C64Memory.constructor | src/player/memory.rs:663-718 | RAM is the stubbed power-on image; the overlay copies its KERNAL area; no captured writes at cycle 0; OSC3 seed $12345678; empty shadow; the CIA port set-up; any SID bases, a base above $FFE0 simply mapping nothing |
| PlayerMemory.C64Memory.RebuildKernalRom | src/player/memory.rs:731-734 | the overlay becomes RAM $E000-$FFFF with the KERNAL ROM stubs patched over it |
| PlayerMemory.C64Memory.ClearWrites | src/player/memory.rs:746-749 | no captured writes and frame cycle 0 |
| PlayerMemory.C64Memory.TickJiffyClock | src/player/memory.rs:755-765 | the bus RAM's jiffy clock goes up by one; nothing else in RAM changes |
| PlayerMemory.C64Memory.GetByte | src/player/memory.rs:811-875 | each address reads from what the memory map gives for the port; an OSC3 read steps the noise generator; a CIA ICR read acknowledges only that CIA |
| PlayerMemory.C64Memory.ReadIo | src/player/memory.rs:821-859 | the $D000-$DFFF arm: RAM when I/O is banked out; VIC, SID, colour RAM, CIA 1, CIA 2 or expansion RAM otherwise |
| PlayerMemory.C64Memory.ReadCia1 | src/player/memory.rs:853 | reads CIA 1 register `(address - $DC00) & $0F` |
| PlayerMemory.C64Memory.ReadCia2 | src/player/memory.rs:855 | reads CIA 2 register `(address - $DD00) & $0F` |
| PlayerMemory.C64Memory.Captured | src/player/memory.rs:903-916 | a captured register always fits the 128-byte shadow |
| PlayerMemory.C64Memory.SetByte | src/player/memory.rs:877-927 | the byte always lands in RAM and from $E000 up in the overlay; a SID-bound write that maps is appended as (frame cycle, register, value) and shadowed; a visible VIC or CIA write leaves that chip as its own write of the register does; the other chips are unchanged |
| PlayerMemory.C64Memory.WriteIo | src/player/memory.rs:884-918 | the visible-I/O arm: the VIC or the CIA the address selects ends as its own write of the register leaves it, the other chips unchanged; the rest of the window goes to SID capture |
| PlayerMemory.C64Memory.WriteVic | src/player/memory.rs:890-892 | the VIC ends as its own write of register `address - $D000` leaves it |
| PlayerMemory.C64Memory.WriteCia1 | src/player/memory.rs:893-895 | CIA 1 ends as its own write of the register offset leaves it |
| PlayerMemory.C64Memory.WriteCia2 | src/player/memory.rs:896-898 | CIA 2 ends as its own write of the register offset leaves it |
| PlayerMemory.C64Memory.CaptureSid | src/player/memory.rs:899-915 | mono mode folds $D400-$D7FF onto one SID; otherwise the mapper picks the register; unmapped writes are dropped |
| PlayerMemory.C64Memory.StoreRam | src/player/memory.rs:878-919 | every write stores the byte in RAM at the address and from $E000 up in the KERNAL overlay, nothing else in either; the banking and the capture decision for any address are unchanged |
| PlayerControl.Delta | src/player/mod.rs:94 | the clamped gap always fits a `u16` |
| PlayerControl.SendSidWrites | src/player/mod.rs:83-116 | an empty frame makes no device call; otherwise exactly one `ring_cycled` call with the mirrored or the multi-SID encoding |
| PlayerControl.EncodeMirrored | src/player/mod.rs:88-104 | the mono-mirror loop builds `MirrorEncode` of the writes |
| PlayerControl.PushMirrored | src/player/mod.rs:93-101 | one write adds its record and, for registers $00-$18, a delta-0 copy for SID 2 |
| PlayerControl.MirrorEncodeSnoc | src/player/mod.rs:93-101 | the mirrored encoding of a longer prefix adds the next write's group |
| PlayerControl.EncodeDeltas | src/player/mod.rs:105-115 | the multi-SID loop builds `DeltaEncode` of the writes |
| PlayerControl.DeltaEncodeSpec | src/player/mod.rs:105-115 | one record per write in order, with its register and value and the saturating gap to the previous stamp clamped to $FFFF |
| PlayerControl.DeltasSumToStamps | src/player/mod.rs:109-113 | for stamps that never go back or jump more than $FFFF, the delays up to write i add up to its absolute stamp |
| PlayerControl.MirrorLength | src/player/mod.rs:93-101 | the mirrored encoding holds one record per write plus one per mirrored write |
| PlayerControl.MirrorAt | src/player/mod.rs:93-101 | each write's record sits where its multi-SID record would after the earlier copies; a mirrored write is followed by its copy at register + $20 and delta 0 |
| PlayerControl.MirrorKeepsTiming | src/player/mod.rs:88-115 | mirroring adds records but no delay: both encodings span the same cycles |
| PlayerControl.ElapsedAppend | src/player/mod.rs:94 | delays of two record runs add up |
| PlayerControl.PushFrame | src/player/mod.rs:277-292 | PC high, PC low and status are pushed with the stack pointer wrapping in page 1; an RTI from the new pointer pulls back exactly what was pushed; only the three stack slots change |
| PlayerControl.Push | src/player/mod.rs:281-282 | one push stores at the slot and moves the pointer down with wrap-around; nothing else changes |
| PlayerControl.EnterInterrupt | src/player/mod.rs:277-304 | pushes the frame, sets I and loads PC from the vector through the banked bus; only the stack page changes; the OSC3 generator is untouched |
| PlayerControl.DeliverIrq | src/player/mod.rs:271-305 | with I set nothing changes and 0 cycles pass; otherwise the interrupt is entered through $FFFE in 7 cycles |
| PlayerControl.DeliverNmi | src/player/mod.rs:310-331 | never masked; entered through $FFFA in 7 cycles |
| PlayerControl.PushedStatusSpec | src/player/mod.rs:289 | the pushed status has B clear and the unused bit set, and keeps every other flag |
| PlayerControl.TogglePauseSpec | src/player/mod.rs:652-660 | Playing and Paused swap; a second toggle undoes the first; a stopped player stays stopped |
| PlayerControl.SidBasesSpec | src/player/mod.rs:729-746 | the base list starts at $D400 and holds one to four non-zero bases; its extra bases are exactly the non-zero configured ones, one per configured extra SID; mirroring happens exactly when no extra SID is configured |
| PlayerControl.ElapsedStep | src/player/mod.rs:94-99 | the running total after record i is the total before it plus that record's delay |
| PlayerControl.PacedDelay | src/player/mod.rs:109-111 | when stamps never go back nor jump by more than $FFFF, each record's delay added to the previous stamp gives the write's own stamp |
| PlayerRsidBus.CaptureAgrees | src/player/rsid_bus.rs:369-379 | in mono mode, and for the first SID's window in any mode, the guard as written and the corrected guard capture the same register |
| PlayerRsidBus.SecondSidDropped | src/player/rsid_bus.rs:369-379 | with a second SID at $DE00 in stereo mode the guard as written drops its writes although the mapper maps them to register $20 |
| PlayerRsidBus.CaptureSpec | src/player/rsid_bus.rs:292-302 | a captured write was made with I/O mapped and is what `map_sid_write` gives, inside the shadow; with I/O visible the RSID bus captures exactly what the PSID bus captures |
| PlayerRsidBus.NewMachine | src/player/rsid_bus.rs:52-55 | the machine has the VIC-II of the chosen standard and is valid and fresh |
| PlayerRsidBus.RsidBus.constructor | src/player/rsid_bus.rs:51-66 | no captured writes at cycle 0; an empty shadow; the noise seed $12345678; the VIC-II of the chosen standard; any SID bases, a base above $FFE0 simply mapping nothing |
| PlayerRsidBus.RsidBus.Load | src/player/rsid_bus.rs:72-77 | RAM from `addr` holds the payload, cut at the top of memory; everything around it is kept |
| PlayerRsidBus.RsidBus.InstallKernalStubs | src/player/rsid_bus.rs:81-91 | the KERNAL ROM becomes RAM $E000-$FFFF with the stubs patched over it |
| PlayerRsidBus.RsidBus.InstallSoftwareVectors | src/player/rsid_bus.rs:154-162 | $0314-$0319 hold IRQ $EA31, BRK $EA81 and NMI $FE72; the rest of RAM is kept |
| PlayerRsidBus.RsidBus.InstallTrampoline | src/player/rsid_bus.rs:227-236 | `JSR target` then `JMP` to its own address at `at`; nothing else in RAM changes |
| PlayerRsidBus.RsidBus.SetHwVector | src/player/rsid_bus.rs:238-249 | the word lands little-endian in RAM and from $E000 up in the KERNAL ROM; no other byte changes |
| PlayerRsidBus.RsidBus.ClearWrites | src/player/rsid_bus.rs:251-254 | no captured writes and frame cycle 0 |
| PlayerRsidBus.RsidBus.TickJiffyClock | src/player/rsid_bus.rs:257-267 | the jiffy clock at $A0-$A2 goes up by one modulo 2^24; nothing else in RAM changes |
| PlayerRsidBus.RsidBus.ClearStaleInts | src/player/rsid_bus.rs:332-340 | a CIA whose timer A is stopped has its interrupt state cleared; the other keeps it |
| PlayerRsidBus.RsidBus.ClearStale | src/player/rsid_bus.rs:334-339 | one CIA's half of the clean-up |
| PlayerRsidBus.RsidBus.GetByte | src/player/rsid_bus.rs:348-367 | with I/O mapped a SID register read is answered here, steps OSC3 on register $1B and leaves the machine alone; every other read is the machine's mapped bank byte and leaves the seed alone |
| PlayerRsidBus.RsidBus.ReadSid | src/player/rsid_bus.rs:353-364 | answers the SID register read and steps the seed as the shared read function says |
| PlayerRsidBus.RsidBus.Captured | src/player/rsid_bus.rs:372-378 | under the corrected guard (every mapped I/O-page SID address, not only $D400-$D7FF), a captured register lies inside the 128-byte shadow |
| PlayerRsidBus.RsidBus.SetByte | src/player/rsid_bus.rs:369-390 | a write the corrected guard captures is appended as (frame cycle, register, value) and shadowed; from $E000 up the KERNAL ROM takes the byte; RAM always holds it; no other RAM byte changes |
| PlayerRsidBus.RsidBus.CaptureWrite | src/player/rsid_bus.rs:372-378 | appends and shadows exactly the writes the corrected guard captures |
| PlayerRsidBus.RsidBus.WriteMachine | src/player/rsid_bus.rs:380-387 | from $E000 up the KERNAL ROM takes the byte and below it the ROM is kept; then the machine's own write: RAM holds the byte and no other RAM byte changes |
| PlayerRsidBus.NewParts | src/player/rsid_bus.rs:52-64 | the machine of NewMachine and a zero 128-byte shadow that is no part of it |
| EmuBanks.NullSidSpec | src/c64_emu/banks/sid_bank.rs:13-21 | the placeholder chip reads $FF everywhere and stays a placeholder through writes and resets |
| EmuBanks.BlockIsPowerOn | src/c64_emu/banks/system_ram.rs:23-35 | the fill-then-stripe pass over one 16K block leaves exactly the power-on pattern |
| EmuBanks.PowerOnRows | src/c64_emu/banks/system_ram.rs:16-22 | the pattern repeats every 32K and its first rows at $0000 and $4000 are the documented ones |
| EmuBanks.SystemRamBank.constructor | src/c64_emu/banks/system_ram.rs:10-14 | a new bank holds the power-on pattern |
| EmuBanks.SystemRamBank.Reset | src/c64_emu/banks/system_ram.rs:23-35 | every byte becomes its power-on value |
| EmuBanks.SystemRamBank.Poke | src/c64_emu/banks/system_ram.rs:42-47 | the byte reads back at its address; no other byte changes |
| EmuBanks.ColorRamBank.constructor | src/c64_emu/banks/color_ram.rs:10 | all 1024 cells zero |
| EmuBanks.ColorRamBank.Reset | src/c64_emu/banks/color_ram.rs:11 | all cells zero again |
| EmuBanks.ColorRamBank.Peek | src/c64_emu/banks/color_ram.rs:22-24 | a read is never above $0F |
| EmuBanks.ColorRamBank.Poke | src/c64_emu/banks/color_ram.rs:19-21 | the low nybble reads back through every mirror of the cell; other cells are kept |
| EmuBanks.DisconnectedBusBank.constructor | src/c64_emu/banks/disconnected_bus.rs:15-17 | no source for the last bus byte |
| EmuBanks.DisconnectedBusBank.SetLastReadByteFn | src/c64_emu/banks/disconnected_bus.rs:19-21 | the source is installed |
| EmuBanks.DisconnectedBusBank.Peek | src/c64_emu/banks/disconnected_bus.rs:30-32 | $FF without a source; the source's byte with one |
| EmuBanks.IoPage | src/c64_emu/banks/io_bank.rs:54-57 | an I/O page index is below 16 |
| EmuBanks.IoBank.constructor | src/c64_emu/banks/io_bank.rs:37-41 | every page is routed to the floating bus |
| EmuBanks.IoBank.Standard | src/c64_emu/banks/io_bank.rs:77-83 | the default bank carries the standard map |
| EmuBanks.IoBank.SetBank | src/c64_emu/banks/io_bank.rs:43-46 | one page is rerouted; the others are kept |
| EmuBanks.IoBank.Dispatch | src/c64_emu/banks/io_bank.rs:54-57 | an address goes to the chip of its page |
| EmuBanks.IoBank.ResetDefault | src/c64_emu/banks/io_bank.rs:60-75 | the map becomes the standard one |
| EmuBanks.DefaultIoMap | src/c64_emu/banks/io_bank.rs:60-75 | the standard map puts the VIC at $D000-$D3FF, the SID at $D400-$D7FF, colour RAM at $D800-$DBFF, CIA 1 at $DC00, CIA 2 at $DD00 and the floating bus above, in both directions |
| EmuBanks.SidBank.constructor | src/c64_emu/banks/sid_bank.rs:29-34 | the placeholder chip and an all-zero status copy |
| EmuBanks.SidBank.SetSid | src/c64_emu/banks/sid_bank.rs:36-38 | the given chip, or the placeholder when none |
| EmuBanks.SidBank.Reset | src/c64_emu/banks/sid_bank.rs:40-43 | the status copy is zeroed and the chip reset at volume $0F |
| EmuBanks.SidBank.GetStatus | src/c64_emu/banks/sid_bank.rs:45-47 | the output holds the last value written to each register |
| EmuBanks.SidBank.Poke | src/c64_emu/banks/sid_bank.rs:57-61 | register `address & $1F` is remembered and forwarded to the chip; other remembered values are kept |
| EmuBanks.SidBank.Peek | src/c64_emu/banks/sid_bank.rs:62-64 | the placeholder chip reads $FF |
| EmuBanks.PeekIgnoresLastPoke | src/c64_emu/banks/sid_bank.rs:57-64 | a read returns the chip's register, not the remembered write |
| EmuBanks.Slot | src/c64_emu/banks/extra_sid.rs:27-29 | a slot index is below 128 |
| EmuBanks.ExtraSidBank.constructor | src/c64_emu/banks/extra_sid.rs:18-23 | no chips and no slot mapped |
| EmuBanks.ExtraSidBank.Reset | src/c64_emu/banks/extra_sid.rs:31-35 | every installed chip is reset at volume $0F |
| EmuBanks.ExtraSidBank.AddSid | src/c64_emu/banks/extra_sid.rs:39-44 | the chip is installed last and the base's slot routed to it; other slots are kept |
| EmuBanks.ExtraSidBank.Peek | src/c64_emu/banks/extra_sid.rs:50-55 | $FF on an unmapped slot, else the slot's chip register |
| EmuBanks.ExtraSidBank.Poke | src/c64_emu/banks/extra_sid.rs:57-61 | ignored on an unmapped slot, else written to the slot's chip only |
| EmuRom.Overlay | src/c64_emu/banks/system_rom.rs:54-55 | an image keeps its size when a prefix is copied over it |
| EmuRom.CopyPrefix | src/c64_emu/banks/system_rom.rs:54-55 | the fitting prefix of the data is copied over the image |
| EmuRom.Off8K | src/c64_emu/banks/system_rom.rs:30-32 | an 8K offset is below $2000 |
| EmuRom.StubAscending | src/c64_emu/banks/system_rom.rs:90-136 | the stub entries lie at strictly increasing addresses from $E000 up |
| EmuRom.LookupEntry | src/c64_emu/banks/system_rom.rs:84-86 | in such a table each entry is the last writer of its offset |
| EmuRom.ApplyStubAt | src/c64_emu/banks/system_rom.rs:84-86 | after the table is written each offset holds its last writer's byte, or its old byte |
| EmuRom.StubFacts | src/c64_emu/banks/system_rom.rs:90-136 | the stubbed image holds every stub byte and the RESET vector $FCE2, and its old bytes elsewhere |
| EmuRom.StubVectors | src/c64_emu/banks/system_rom.rs:128-133 | the stub's vectors are NMI $FE43, RESET $FCE2 and IRQ $FF48 |
| EmuRom.KernalRomBank.constructor | src/c64_emu/banks/system_rom.rs:42-50 | an RTS-filled image with the stub and the RESET snapshot $FCE2 |
| EmuRom.KernalRomBank.InstallStub | src/c64_emu/banks/system_rom.rs:90-136 | every stub byte is written; other bytes are kept; the RESET vector is snapshotted |
| EmuRom.KernalRomBank.Set | src/c64_emu/banks/system_rom.rs:52-62 | a given image overwrites the start of the ROM; none rebuilds the RTS-filled stub; the RESET vector in the image becomes the snapshot |
| EmuRom.KernalRomBank.Reset | src/c64_emu/banks/system_rom.rs:64-67 | the snapshot goes back into the RESET vector; nothing else changes |
| EmuRom.KernalRomBank.InstallResetHook | src/c64_emu/banks/system_rom.rs:79-82 | RESET points at the address; nothing else changes |
| EmuRom.Splice | src/c64_emu/banks/system_rom.rs:183-187 | splicing keeps the image size |
| EmuRom.SpliceAt | src/c64_emu/banks/system_rom.rs:183-187 | the spliced range holds the code and the rest the old bytes |
| EmuRom.BasicRomBank.constructor | src/c64_emu/banks/system_rom.rs:162-168 | an RTS-filled image with zero backups |
| EmuRom.BasicRomBank.Set | src/c64_emu/banks/system_rom.rs:170-181 | a given prefix is loaded; both patch ranges are then backed up |
| EmuRom.BasicRomBank.Reset | src/c64_emu/banks/system_rom.rs:183-188 | both backups are written back |
| EmuRom.BasicRomBank.InstallTrap | src/c64_emu/banks/system_rom.rs:190-195 | `JMP address` at the warm start $A7AE |
| EmuRom.BasicRomBank.SetSubtune | src/c64_emu/banks/system_rom.rs:197-210 | the subtune-selecting code at $BF53 |
| EmuRom.BasicRomBank.WriteAt | src/c64_emu/banks/system_rom.rs:191-209 | the code lands at the offset; the rest is kept |
| EmuRom.ResetUndoesPatches | src/c64_emu/banks/system_rom.rs:170-210 | resetting after a trap and a subtune patch gives the image back as it was when set |
| EmuRom.TrapTarget | src/c64_emu/banks/system_rom.rs:190-195 | the trap is a JMP to its target |
| EmuRom.CharacterRomBank.constructor | src/c64_emu/banks/system_rom.rs:234-236 | a zero image |
| EmuRom.CharacterRomBank.Set | src/c64_emu/banks/system_rom.rs:238-243 | a given prefix is loaded; none is ignored |
| EmuZeroRam.FallOff | src/c64_emu/banks/zero_ram.rs:35-45 | a written fall-off bit reads as the masked value until 350000 cycles later, and after that as 0 with the bit reset |
| EmuZeroRam.ReadBitMask | src/c64_emu/banks/zero_ram.rs:35-40 | a read keeps the bit's mask and a value inside it |
| EmuZeroRam.PlaState | src/c64_emu/banks/zero_ram.rs:127 | the PLA state handed to the MMU is a 3-bit value |
| EmuZeroRam.PortPinsSpec | src/c64_emu/banks/zero_ram.rs:125 | output pins take the data bits; input pins keep their level |
| EmuZeroRam.PortReadBackSpec | src/c64_emu/banks/zero_ram.rs:126-131 | bits 0-2 and 4 read back the data on outputs and 1 on inputs; bit 5 reads 0 while it is an input |
| EmuZeroRam.WithFallOffSpec | src/c64_emu/banks/zero_ram.rs:153-166 | bits 0-5 are the read-back value; bits 6 and 7 come from it on outputs and from their fall-off bits on inputs |
| EmuZeroRam.ZeroRamBank.constructor | src/c64_emu/banks/zero_ram.rs:78-90 | all inputs; data, read-back and pins $3F; fresh fall-off bits; no listener and no clock |
| EmuZeroRam.ZeroRamBank.SetPortCallback | src/c64_emu/banks/zero_ram.rs:93-95 | a listener is installed |
| EmuZeroRam.ZeroRamBank.SetPhi2TimeFn | src/c64_emu/banks/zero_ram.rs:97-99 | a clock is installed |
| EmuZeroRam.ZeroRamBank.UpdateCpuPort | src/c64_emu/banks/zero_ram.rs:124-137 | pins and read-back are recomputed; a listener is given the PLA state |
| EmuZeroRam.ZeroRamBank.Reset | src/c64_emu/banks/zero_ram.rs:105-113 | both fall-off bits reset; the power-on port with read-back $1F; a listener is told state 7 |
| EmuZeroRam.ZeroRamBank.PeekMut | src/c64_emu/banks/zero_ram.rs:151-169 | $00 reads the direction, $01 the read-back value with input bits 6 and 7 from their decaying fall-off bits, other addresses 0 |
| EmuZeroRam.ZeroRamBank.ReadPort | src/c64_emu/banks/zero_ram.rs:154-166 | the $01 read, with only the input fall-off bits stepping their decay |
| EmuZeroRam.ZeroRamBank.Poke | src/c64_emu/banks/zero_ram.rs:171-201 | $00 changes only the direction register, $01 only the data register, any other address nothing |
| EmuZeroRam.ZeroRamBank.PokeDir | src/c64_emu/banks/zero_ram.rs:173-184 | writing the current direction changes nothing; otherwise bits 6 and 7 turning into inputs latch the data for fall-off and the port is recomputed |
| EmuZeroRam.ZeroRamBank.PokeData | src/c64_emu/banks/zero_ram.rs:186-198 | output bits 6 and 7 refresh their fall-off bits; the port is recomputed and the listener told only when the data changes |
| EmuMmu.LcgNext | src/c64_emu/mmu.rs:91 | the generator's state stays a 32-bit value |
| EmuMmu.Mmu.constructor | src/c64_emu/mmu.rs:33-44 | all lines low; both maps follow the banking table; the seed 3686734 |
| EmuMmu.Mmu.Reset | src/c64_emu/mmu.rs:46-51 | all lines low and the maps rebuilt; the generator keeps its state |
| EmuMmu.Mmu.SetCpuPort | src/c64_emu/mmu.rs:54-59 | LORAM, HIRAM and CHAREN are bits 0, 1 and 2 of the state; the maps follow them |
| EmuMmu.Mmu.UpdateMapping | src/c64_emu/mmu.rs:61-87 | both maps agree with the banking table for the current lines |
| EmuMmu.Mmu.LastReadByte | src/c64_emu/mmu.rs:90-93 | the generator steps once and the byte is bits 16-23 of the new state |
| EmuMmu.KernalVisible | src/c64_emu/mmu.rs:66-70 | reads see the KERNAL exactly on pages E and F and exactly when HIRAM is up |
| EmuMmu.BasicVisible | src/c64_emu/mmu.rs:72-76 | reads see BASIC exactly on pages A and B and exactly when LORAM and HIRAM are up |
| EmuMmu.PageDRules | src/c64_emu/mmu.rs:78-86 | page D is I/O both ways exactly when CHAREN and a ROM line are up, the character ROM for reads when CHAREN is down and a ROM line up, RAM otherwise |
| EmuMmu.AlwaysRam | src/c64_emu/mmu.rs:62-64 | writes reach RAM except on page D; reads of pages 0-9 and C always reach RAM |
| EmuMmu.WriteFollowsRead | src/c64_emu/mmu.rs:61-87 | a write reaches I/O only where a read does and never reaches a ROM |
| EmuMmu.PortModes | src/c64_emu/mmu.rs:54-87 | port states with both ROM lines low are all RAM; state 7 shows BASIC, I/O and KERNAL; state 5 shows I/O only |
| EmuMmu.LcgSingleReduction | src/c64_emu/mmu.rs:91 | the two wrapping steps equal one reduction of the exact value modulo 2^32 |
| EmuMmu.NoiseIgnoresHighByte | src/c64_emu/mmu.rs:92 | the noise byte never depends on the seed's top byte |
| EmuCia.RegIndex | src/c64_emu/cia/mod.rs:95 | the selected register is always one of the sixteen |
| EmuCia.PortValueSpec | src/c64_emu/cia/mod.rs:99-101 | output bits of a port read the latch and input bits read 1 |
| EmuCia.AdjustDataPortSpec | src/c64_emu/cia/mod.rs:233-247 | bits 0-5 of port B always read the port; PB6 shows timer A's output exactly when CRA bit 1 is set and PB7 timer B's exactly when CRB bit 1 is set; otherwise those bits read the port |
| EmuCia.ControlReadSpec | src/c64_emu/cia/mod.rs:117-118 | a control register reads as stored except that the force-load bit reads 0 and bit 0 reads whether the timer runs |
| EmuCia.CounterBytesSpec | src/c64_emu/cia/mod.rs:105-108 | the high and low bytes a timer reads recombine into its 16-bit counter |
| EmuCia.ShiftAfterSpec | src/c64_emu/cia/mod.rs:199-207 | the serial shift counter stays below eight and wraps to zero exactly on the eighth underflow |
| EmuCia.Mos652x.constructor | src/c64_emu/cia/mod.rs:65-77 | fresh parts in the state `reset` leaves: all sixteen registers zero; both timers at latch and counter $FFFF and stopped; TOD at 1 o'clock and stopped; no interrupt and an empty mask; shift count and cycle count zero; an interrupt source of the given model |
| EmuCia.Mos652x.SetModel | src/c64_emu/cia/mod.rs:79-81 | the interrupt source is replaced by a fresh one of the new model: empty mask and flags and the line released |
| EmuCia.Mos652x.Reset | src/c64_emu/cia/mod.rs:83-90 | all sixteen registers zero; both timers back to latch and counter $FFFF and stopped; TOD at 1 o'clock and stopped; no interrupt; cycle count kept |
| EmuCia.Mos652x.InterruptAsserted | src/c64_emu/cia/mod.rs:267-269 | the chip's line is asserted exactly when the request bit of the data register is set |
| EmuCia.Mos652x.SetDayOfTimeRate | src/c64_emu/cia/mod.rs:251-253 | the TOD tick period becomes the rate times 128 cycles |
| EmuCia.Mos652x.SetFlag | src/c64_emu/cia/mod.rs:257-263 | FLAG is recorded in the interrupt data register and the line change is reported exactly when the line went from released to asserted |
| EmuCia.Mos652x.Read | src/c64_emu/cia/mod.rs:94-122 | per register: ports with inputs high and PB6/PB7 timer outputs; counter bytes; TOD through its latch; ICR answers the pending flags and acknowledges them (reporting the line released if it was asserted); control registers with the running bit; no other read changes the interrupt state |
| EmuCia.Mos652x.Write | src/c64_emu/cia/mod.rs:125-172 | the register file takes the byte at the register; TAL/TAH/TBL/TBH write the chosen latch half (the counter following while LOAD is set, and a stopped timer reloading on the high byte); CRA and CRB set the timer control (CRB bit 6 forcing bit 5) and a 0 to 1 start bit sets the PB toggle; a TOD register is written as the TOD write says, the alarm under CRB bit 7; an SDR write in output mode restarts the shift count; ICR updates the mask as MaskAfterSpec describes and reports a newly raised line exactly when an enabled flag is pending and the line was released; no other write touches the interrupt state |
| EmuCia.Mos652x.WriteControl | src/c64_emu/cia/mod.rs:155-167 | the timer's control state takes the written bits; counter and latch unchanged; the PB toggle is set when the start bit goes from 0 to 1 |
| EmuCia.Mos652x.Tick | src/c64_emu/cia/mod.rs:176-231 | one cycle: timer A takes its step; timer B takes its step, fed a cascade count exactly when A underflowed in cascade mode; the shift counter advances on A's underflow in output mode; the TOD reaches the divider it was due; UNDERFLOW_A, SP, UNDERFLOW_B and ALARM are set exactly when their event happened or they already were, every other flag and the mask kept; afterwards the line is up exactly when it was up, when the older models' pending trigger was delivered with an enabled flag set, or when a flag was raised this cycle and an enabled flag is set; the 6526 models then hold the last flag raised (in the order UNDERFLOW_A, SP, UNDERFLOW_B, ALARM) as the pending trigger and otherwise none is pending; `Some(true)` exactly when the line rose; the cycle count grows by one |
| EmuCia.Mos652x.TimerAPhase | src/c64_emu/cia/mod.rs:186-208 | timer A takes one step; its underflow sets UNDERFLOW_A, gives timer B a cascade count exactly in cascade mode and advances the serial counter in output mode, SP set when that completes a byte; the other flags and the mask kept; the line is never released and its rise reported; the run of triggers gains UNDERFLOW_A then SP when raised |
| EmuCia.Mos652x.ShiftSerial | src/c64_emu/cia/mod.rs:199-207 | the shift counter advances modulo eight and completing a byte flags SP |
| EmuCia.Mos652x.TimerBPhase | src/c64_emu/cia/mod.rs:211-216 | timer B takes one step; UNDERFLOW_B is set exactly when it underflowed or was already set, the other flags and the mask kept; the line is never released and its rise reported; the run of triggers gains UNDERFLOW_B when raised |
| EmuCia.Mos652x.TodPhase | src/c64_emu/cia/mod.rs:218-224 | after the timer phases, the TOD's tick and a matched alarm's ALARM flag complete the cycle: the chip is in the state Tick states, line and pending trigger included, and the rise of the line is reported |
| EmuCiaInterrupt.RaiseSpec | src/c64_emu/cia/interrupt.rs:56-57 | raising the line sets the request bit and keeps the five flag bits |
| EmuCiaInterrupt.MaskAfterSpec | src/c64_emu/cia/interrupt.rs:49-53 | an ICR write with bit 7 set turns on exactly the given bits and keeps the rest; with bit 7 clear it turns off exactly the given bits; the mask never gains bit 7 |
| EmuCiaInterrupt.FlagKeepsRequest | src/c64_emu/cia/interrupt.rs:66 | recording a source flag never changes the request bit and always records the flag |
| EmuCiaInterrupt.FlagRecorded | src/c64_emu/cia/interrupt.rs:65-91 | whichever branch a trigger takes the flag ends up in the data register |
| EmuCiaInterrupt.InterruptSource.constructor | src/c64_emu/cia/interrupt.rs:28-36 | empty mask and flags; line released; nothing pending; the given model |
| EmuCiaInterrupt.InterruptSource.Renew | src/c64_emu/cia/interrupt.rs:28-36 | the state of a newly built source of the given model replaces the old one |
| EmuCiaInterrupt.InterruptSource.Reset | src/c64_emu/cia/interrupt.rs:38-43 | as new and the model kept |
| EmuCiaInterrupt.InterruptSource.SetMask | src/c64_emu/cia/interrupt.rs:48-61 | the mask is updated as MaskAfterSpec describes; the line is raised and reported exactly when an already pending flag is now enabled and the line was released; nothing else changes |
| EmuCiaInterrupt.InterruptSource.Trigger | src/c64_emu/cia/interrupt.rs:65-91 | the flag is recorded; the line is raised and true answered exactly when an enabled flag is set once the flag is recorded and the line was released; the 6526 models hold this flag as the pending trigger whenever an enabled flag is set, the 8521 never changes it; the mask is kept and the line never drops |
| EmuCiaInterrupt.InterruptSource.TickDelayed | src/c64_emu/cia/interrupt.rs:95-104 | the pending trigger is consumed; the line is raised only when one was pending with an enabled flag set and the line released |
| EmuCiaInterrupt.InterruptSource.Clear | src/c64_emu/cia/interrupt.rs:107-112 | answers the flags as they were and leaves no flag set and the line released |
| EmuCia.Mos652x.WriteEffect | src/c64_emu/cia/mod.rs:131-169 | per register: latch halves and control writes update their timer as Write says and leave the other timer; ICR updates the mask and reports a newly raised line; no other register touches the interrupt state |
| EmuCia.Mos652x.TimersPhase | src/c64_emu/cia/mod.rs:185-216 | from the state after the delayed trigger: timer A's step, the cascade into B and the serial shift, then timer B's step; UNDERFLOW_A, SP and UNDERFLOW_B set exactly on their events, ALARM and the mask kept; the line and pending trigger those of the run of triggers with these flags raised in this order; the rise of the line reported |
| EmuCia.Mos652x.CascadeB | src/c64_emu/cia/mod.rs:192-195 | timer B gets one cascade count exactly when A underflowed and CRB selects counting A's underflows with B started; otherwise it is unchanged |
| EmuCia.Mos652x.SerialOnUnderflow | src/c64_emu/cia/mod.rs:197-207 | on A's underflow in output mode the shift counter advances modulo eight and completing a byte sets SP; otherwise counter and flags are unchanged; the line is never released and its rise reported; the run of triggers gains SP when raised |
| EmuCiaInterrupt.InterruptSource.TriggerIf | src/c64_emu/cia/mod.rs:187-190 | `trigger` of the flag when its event happened: the answer, flags and pending trigger Trigger states, so the line rises exactly when an enabled flag is set and the line was released, and the 6526 models hold the flag as pending; nothing changes otherwise; the line never drops; the run of triggers gains the flag as its last raised one |
| EmuCiaInterrupt.InterruptSource.IcrMask | src/c64_emu/cia/interrupt.rs:115-117 | the mask last set through ICR writes |
| EmuCia.Mos652x.TodStep | src/c64_emu/cia/mod.rs:218-224 | the TOD reaches the divider it was due; ALARM is set exactly when the alarm matched or was already set, the other flags and the mask kept; the run of triggers gains ALARM when raised |
| EmuCia.LastRaised | src/c64_emu/cia/mod.rs:185-224 | a cycle raises some flag exactly when one of its four events happened, and a matched alarm is always the last flag raised |
| EmuCia.TimerAUnderflowRaises | src/c64_emu/cia/mod.rs:185-190 | after a cycle in which timer A underflowed with UNDERFLOW_A enabled in the mask, the line is up; with Tick's report, a released line then gives `Some(true)` |
| EmuCia.QuietTickKeepsLine | src/c64_emu/cia/mod.rs:176-231 | a cycle with the line released, nothing pending and no timer underflow or alarm leaves the line released and nothing pending |
| EmuCiaInterrupt.EnabledBy | src/c64_emu/cia/interrupt.rs:68 | a source flag that is set and enabled in the mask makes the interrupt condition true |
| EmuCiaInterrupt.TriggerEnables | src/c64_emu/cia/interrupt.rs:66-74 | recording a flag keeps the request bit; raising the line then sets it and keeps the interrupt condition; an enabled flag stays enabled |
| EmuCiaInterrupt.LineChain | src/c64_emu/cia/interrupt.rs:65-91 | two runs of triggers in a row leave the line and pending trigger of one run whose last raised flag is the later one |
| EmuCiaTimer.Timer.constructor | src/c64_emu/cia/timer.rs:34-42 | counter and latch $FFFF; state word clear; toggle low |
| EmuCiaTimer.Timer.Reset | src/c64_emu/cia/timer.rs:44-50 | the same state as a new timer |
| EmuCiaTimer.Timer.SetControl | src/c64_emu/cia/timer.rs:56-60 | the state word's control bits follow the byte as ControlStateSpec describes; the byte is remembered; counter and latch unchanged |
| EmuCiaTimer.Timer.SetLatchLo | src/c64_emu/cia/timer.rs:62-67 | only the latch's low byte changes; the counter follows the latch exactly while LOAD is set |
| EmuCiaTimer.Timer.SetLatchHi | src/c64_emu/cia/timer.rs:69-76 | only the latch's high byte changes; the counter follows the latch while LOAD is set; otherwise a stopped timer schedules a load |
| EmuCiaTimer.Timer.CascadeStep | src/c64_emu/cia/timer.rs:79-81 | the STEP bit is added and nothing else changes |
| EmuCiaTimer.Timer.TickPhi2 | src/c64_emu/cia/timer.rs:84-125 | the timer's registers become one Step of the old ones and the underflow answer is that Step's |
| EmuCiaTimer.Timer.GetPb | src/c64_emu/cia/timer.rs:128-134 | with bit 2 of the control byte the output is the toggle; otherwise it is the OUT pulse bit |
| EmuCiaTimer.LatchBytes | src/c64_emu/cia/timer.rs:62-76 | a latch byte write stays within 16 bits and changes exactly its own byte |
| EmuCiaTimer.ControlStateSpec | src/c64_emu/cia/timer.rs:56-60 | a control write sets START and ONESHOT and FLOAD from the byte and PHI2IN to the inverse of its bit 5; every other state bit is kept |
| EmuCiaTimer.StepSpec | src/c64_emu/cia/timer.rs:84-125 | the counter counts down (wrapping) only with COUNT3 set; an underflow is reported exactly when the counted value is 0 with COUNT3 set after the pipeline step; it raises LOAD and OUT and stops a one-shot timer; whenever LOAD is set the counter holds the latch and COUNT3 is clear; the latch never changes |
| EmuCiaTimer.StoppedTimerHolds | src/c64_emu/cia/timer.rs:84-125 | a stopped timer with an empty pipeline stays stopped and never underflows and keeps its counter unless a load is pending |
| EmuCiaTimer.StartLatency | src/c64_emu/cia/timer.rs:88-101 | a started timer reaches the steady counting state after two cycles and its counter first moves on the third |
| EmuCiaTimer.TicksSplit | src/c64_emu/cia/timer.rs:84-125 | running a + b cycles is running a cycles and then b and the underflow counts add up |
| EmuCiaTimer.CountDown | src/c64_emu/cia/timer.rs:86-88 | a running timer counts down by one per cycle with no underflow while it stays above zero |
| EmuCiaTimer.Period | src/c64_emu/cia/timer.rs:84-125 | a continuously running timer with counter c underflows exactly once in c + 1 cycles and returns to the steady state with the counter reloaded from the latch and the toggle flipped as the control byte asks |
| EmuCiaTod.UpdateCountersSpec | src/c64_emu/cia/tod.rs:136-180 | on a proper 12-hour BCD time the counter chain keeps the time proper and moves it on by exactly one tenth of a second wrapping at midnight |
| EmuCiaTod.AdvanceIsOneTenth | src/c64_emu/cia/tod.rs:146-174 | the carry chain on digits is one tenth of a second on a 24-hour day; 11:59:59.9 AM becomes 12 PM and 11:59:59.9 PM becomes 12 AM |
| EmuCiaTod.AdvanceWithinHour | src/c64_emu/cia/tod.rs:146-160 | below the hour carry a step adds exactly one tenth and keeps the time proper |
| EmuCiaTod.AdvanceHour | src/c64_emu/cia/tod.rs:159-170 | at xx:59:59.9 the hour moves on; 09 to 10 and 12 to 01; reaching 12 flips AM and PM and 11 PM wraps to midnight |
| EmuCiaTod.UnpackPack | src/c64_emu/cia/tod.rs:137-144 | registers written from digits of the right widths read back as the same digits |
| EmuCiaTod.RingPeriod | src/c64_emu/cia/tod.rs:118-131 | from a fresh ring counter a running clock stays put for the first ticks and advances by exactly one tenth on tick five at 50 Hz or tick six at 60 Hz with the ring back at 0 and the alarm answer the clock compared with the alarm |
| EmuCiaTod.AccumulatorSpec | src/c64_emu/cia/tod.rs:109-115 | the whole ticks taken and the 7 fraction bits kept account for the accumulated cycles and below 128 no tick is taken |
| EmuCiaTod.WriteValueSpec | src/c64_emu/cia/tod.rs:75-86 | tenths keep 4 bits; seconds and minutes 7; hours keep bits 0-4 and 7; the PM bit flips exactly on a time write of hour 12 |
| EmuCiaTod.StoppedClockHolds | src/c64_emu/cia/tod.rs:119 | a stopped clock never advances and never raises the alarm however many ticks pass |
| EmuCiaTod.Tod.constructor | src/c64_emu/cia/tod.rs:30-41 | 1:00:00.0 in clock and latch; alarm zero; unlatched and stopped; accumulator zero; period the u64 maximum |
| EmuCiaTod.Tod.Reset | src/c64_emu/cia/tod.rs:43-51 | the state of a new clock with the period kept |
| EmuCiaTod.Tod.SetPeriod | src/c64_emu/cia/tod.rs:53-55 | the period becomes the rate times 128 |
| EmuCiaTod.Tod.Read | src/c64_emu/cia/tod.rs:58-69 | an unlatched clock is copied into the latch first; the answer is the latch register; reading hours freezes the latch and reading tenths releases it |
| EmuCiaTod.Tod.Write | src/c64_emu/cia/tod.rs:73-105 | with CRB bit 7 only the alarm register changes; otherwise only the clock register does; an hours write stops the clock and a tenths write restarts a stopped one with a fresh ring counter; the stored value is WriteValue |
| EmuCiaTod.Tod.Tick | src/c64_emu/cia/tod.rs:108-134 | the accumulator keeps its fraction and its whole ticks are run as PowerTicks; ring counter and clock and alarm answer are PowerTicks' |
| EmuCiaTod.RunTicks | src/c64_emu/cia/tod.rs:118-132 | the loop computes exactly PowerTicks of its input |
| EmuVic.ModelDataOf | src/c64_emu/vic_ii/mod.rs:28-49 | every model has 262 to 312 lines of 63 to 65 cycles; only PAL-B has 63-cycle lines; exactly PAL-B and PAL-N have 312 lines |
| EmuVic.RegIndex | src/c64_emu/vic_ii/mod.rs:165 | the selected register is one of the 64 |
| EmuVic.RasterIrqLineSpec | src/c64_emu/vic_ii/mod.rs:320-322 | the compare line is below 512 with $D012 as its low byte and bit 8 set exactly when bit 7 of $D011 is |
| EmuVic.RasterLow | src/c64_emu/vic_ii/mod.rs:168 | the value read from $D012 is the raster line modulo 256 |
| EmuVic.ReadRasterSpec | src/c64_emu/vic_ii/mod.rs:167-168 | $D011 reads its stored bits 0-6 with bit 8 of the raster line in bit 7; $D012 reads the line's low byte |
| EmuVic.ReadForcedBits | src/c64_emu/vic_ii/mod.rs:171-175 | unused bits read as 1: bits 4-6 of the flags and the upper nibble of the mask and of $20-$2E; $2F-$3F read $FF; the other bits show the stored values |
| EmuVic.ReadPlain | src/c64_emu/vic_ii/mod.rs:169-173 | $D013 and $D014 read the light pen latch and every other register below $20 reads as stored |
| EmuVic.AcknowledgeSpec | src/c64_emu/vic_ii/mod.rs:231 | a $D019 write clears exactly the written source flags and keeps the line bit |
| EmuVic.WithLineSpec | src/c64_emu/vic_ii/mod.rs:354-360 | setting or clearing the line bit leaves the source flags alone |
| EmuVic.RaisedSpec | src/c64_emu/vic_ii/mod.rs:347 | raising the raster or light-pen flag sets it exactly when asked to or already set and keeps every other bit |
| EmuVic.PendingIgnoresLine | src/c64_emu/vic_ii/mod.rs:352 | the line bit takes no part in the pending test |
| EmuVic.BadLinesAfter | src/c64_emu/vic_ii/mod.rs:370-383 | the bad-line enable is off after the last DMA line and only changes around the first DMA line |
| EmuVic.MaskReadBack | src/c64_emu/vic_ii/mod.rs:172 | the mask register reads back the written value with the upper nibble set |
| EmuVic.HandleIrqSpec | src/c64_emu/vic_ii/mod.rs:351-364 | after re-evaluation the line is asserted exactly when an enabled source flag is set; the line bit mirrors it; the source flags are untouched and exactly the changes are reported |
| EmuVic.BadLineWriteSpec | src/c64_emu/vic_ii/mod.rs:191-216 | a $D011 write reports BA exactly when it changes the bad-line condition of a line inside the DMA window and reports the new BA level; before the fetch cycle the bad-line state follows the new condition; past cycle 57 or without a report it stays; a write keeping the scroll changes nothing but the enable; DEN on the line after the first DMA line enables bad lines |
| EmuVic.Mos656x.constructor | src/c64_emu/vic_ii/mod.rs:108-132 | a PAL-B chip of 312 lines of 63 cycles on line 311 at cycle 0; registers and flags zero; IRQ released and BA high |
| EmuVic.Mos656x.Chip | src/c64_emu/vic_ii/mod.rs:134-141 | the model's geometry is taken and given to the light pen; then the chip is reset to the last line |
| EmuVic.Mos656x.Reset | src/c64_emu/vic_ii/mod.rs:143-160 | registers and flags and mask zero; the beam at cycle 0 of the last line; no bad lines; pen up and its latch cleared; sprites reset; IRQ released and BA high; the geometry kept |
| EmuVic.Mos656x.IrqMaskHasRaster | src/c64_emu/vic_ii/mod.rs:303-305 | true exactly when the raster source is enabled in the mask |
| EmuVic.Mos656x.OldRasterY | src/c64_emu/vic_ii/mod.rs:335-341 | the previous line: it is on screen and the line after it is the current one wrapping at the frame |
| EmuVic.Mos656x.HandleIrqState | src/c64_emu/vic_ii/mod.rs:351-364 | the chip's flags and line become HandleIrq's; the line is asserted exactly when an enabled source is pending and a change is reported |
| EmuVic.Mos656x.TriggerLightpen | src/c64_emu/vic_ii/mod.rs:307-312 | the pen is down and the latch triggered; the light-pen flag is raised and the beam position latched exactly when the latch was free and the beam is not past cycle 0 of the last line; otherwise the latch keeps its values |
| EmuVic.Mos656x.ClearLightpen | src/c64_emu/vic_ii/mod.rs:314-316 | the pen is up |
| EmuVic.Mos656x.Write | src/c64_emu/vic_ii/mod.rs:181-241 | the byte is always stored and the chip ends in the state the register's write leaves: plain registers and the mask read it back; $D011 sets the scroll and the bad-line state and may report BA; $D012 runs the raster compare; $D019 clears exactly the written source flags; $D01A sets the mask; $D017 crunches the sprites it clears; after $D011, $D012, $D019 and $D01A the line is asserted exactly when an enabled flag is pending and exactly its change is reported (RegisterWriteSpec, Control1WriteSpec, IrqSourceWriteSpec) |
| EmuVic.Mos656x.WriteEffect | src/c64_emu/vic_ii/mod.rs:189-239 | the chip state and the output are those RegisterWrite gives (scroll and bad lines on $D011, compare on $D012, acknowledge on $D019, mask on $D01A, with the line and its reported change as RegisterWriteSpec states); a $D017 write crunches the sprites it clears and every other register leaves the sprite unit alone |
| EmuVic.Mos656x.ReadBack | src/c64_emu/vic_ii/mod.rs:164-177 | a stored plain register reads back the byte; $20-$2E and the mask read it with the upper nibble set |
| EmuVic.Mos656x.WriteControl1 | src/c64_emu/vic_ii/mod.rs:190-221 | the chip state and the output are those of a $D011 write: scroll from the low three bits, bad-line state and BA report as BadLineWrite says, the raster flag raised exactly on the compare's rising edge against the new compare line, the line following the pending test with its change reported (Control1WriteSpec) |
| EmuVic.Mos656x.WriteIrqSource | src/c64_emu/vic_ii/mod.rs:222-237 | the chip state and the report are those of a $D012, $D019 or $D01A write: $D012 re-runs the compare and may raise the raster flag; $D019 clears exactly the written source flags; $D01A sets the mask to the low nibble and keeps the flags; then the line is asserted exactly when an enabled flag is pending and its change is reported (IrqSourceWriteSpec) |
| EmuVic.Mos656x.AcknowledgeFlags | src/c64_emu/vic_ii/mod.rs:231 | the written source flags are cleared and the others and the line bit kept |
| EmuVic.Mos656x.SetMask | src/c64_emu/vic_ii/mod.rs:235 | the mask is the low nibble of the byte |
| EmuVic.Mos656x.Tick | src/c64_emu/vic_ii/mod.rs:246-298 | the line cycle advances and wraps at the line length; the chip state and IRQ report are BeamStep's: cycle 0 moves the beam down or starts blanking, runs the compare (raising the raster flag on its edge) and re-evaluates the line (LineStartedSpec); cycle 1 ends blanking by wrapping to line 0 with a new frame, the compare and the light-pen flag (FrameStartedSpec); the pen latch follows FramePen; BA falls at cycle 11 of a bad line and rises at cycle 54 unless sprite 0 fetches; the sprite unit steps MC at 14, MCBASE at 15, checks DMA at 55 and 56 and reloads MC at 58, and changes at no other cycle |
| EmuVic.Mos656x.FetchPhase | src/c64_emu/vic_ii/mod.rs:266-295 | the sprite unit's cycles 14, 15, 55, 56 and 58 as in Tick and no change at others; BA's edge of a bad line and the BA level that follows |
| EmuVic.Mos656x.LineEvents | src/c64_emu/vic_ii/mod.rs:257-264 | the chip state, flags, bad-line enable and report are BeamStep's at cycles 0 and 1 (LineStartedSpec, FrameStartedSpec) and unchanged at others; the pen latch follows FramePen |
| EmuVic.Mos656x.LineStart | src/c64_emu/vic_ii/mod.rs:258-261 | the chip state and report are LineStarted's: blanking exactly on the last line, otherwise the next line; the bad-line enable and state, the compare and the raster flag and the line with its reported change as LineStartedSpec states |
| EmuVic.Mos656x.CheckVblank | src/c64_emu/vic_ii/mod.rs:366-388 | blanking starts exactly on the last line and otherwise the beam moves down one line and the raster compare runs; the bad-line enable follows BadLinesAfter and the bad-line state is the new line's condition |
| EmuVic.Mos656x.NextLine | src/c64_emu/vic_ii/mod.rs:367-387 | the beam part of CheckVblank: blanking or the next line and the bad-line enable and state |
| EmuVic.Mos656x.EdgeDetect | src/c64_emu/vic_ii/mod.rs:343-349 | the compare condition is whether the beam is on the compare line and its rising edge raises the raster flag |
| EmuVic.Mos656x.Vblank | src/c64_emu/vic_ii/mod.rs:390-403 | after the last line the beam wraps to line 0 with a new frame flagged and the raster compare run and the light pen released and re-latched when still down; otherwise nothing changes |
| EmuVic.Mos656x.RelatchPen | src/c64_emu/vic_ii/mod.rs:396-401 | the latch is triggered exactly when the pen is down and then the light-pen flag is raised with the position of the start of the frame |
| EmuVic.Mos656x.BaPhase | src/c64_emu/vic_ii/mod.rs:267-295 | BA low at cycle 11 of a bad line and high at cycle 54 of one unless sprite 0 has DMA; no change at other cycles |
| EmuVic.Mos656x.SpritePhase | src/c64_emu/vic_ii/mod.rs:273-287 | MC stepped for the DMA sprites at 14; MCBASE updated at 15 with DMA stopped at $3F; DMA started for the enabled sprites on their line at 55 and 56; MC reloaded from MCBASE at 58; no change at any other cycle |
| EmuVic.IrqHandledSpec | src/c64_emu/vic_ii/mod.rs:351-364 | re-evaluation makes the line mirror the pending test, keeps the flags consistent and the source flags as they were, and changes nothing but the flags and the line |
| EmuVic.EdgeDetectedSpec | src/c64_emu/vic_ii/mod.rs:343-349 | the compare condition becomes "on the compare line" and the raster flag is raised exactly on its rising edge; the line bit, the light-pen flag and the rest of the state are kept |
| EmuVic.RegisterWriteSpec | src/c64_emu/vic_ii/mod.rs:181-241 | every register write keeps the flags consistent and the mask in its low nibble and never moves the beam or touches the frame flag; $D011, $D012, $D019 and $D01A leave the line mirroring the pending test and report exactly its change; every other register leaves the state alone and reports nothing |
| EmuVic.Control1WriteSpec | src/c64_emu/vic_ii/mod.rs:190-221 | a $D011 write sets the scroll to the low three bits, updates the bad-line state and reports BA as BadLineWrite says, runs the compare against the new compare line, keeps the mask, the beam and the frame flag, and reports exactly the change of the line |
| EmuVic.IrqSourceWriteSpec | src/c64_emu/vic_ii/mod.rs:222-237 | $D012 runs the compare; $D019 clears exactly the written source flags; $D01A sets the mask to the low nibble; scroll, bad-line state, beam and frame flag are kept and no BA is reported; the line ends mirroring the pending test and exactly its change is reported |
| EmuVic.LineStartedSpec | src/c64_emu/vic_ii/mod.rs:257-261 | at cycle 0 blanking starts exactly on the last line and otherwise the beam moves down one line; the enable follows BadLinesAfter and the bad-line state is the new line's; off blanking the compare runs; the line then mirrors the pending test and exactly its change is reported; scroll, mask and frame flag kept |
| EmuVic.FrameStartedSpec | src/c64_emu/vic_ii/mod.rs:390-403 | at cycle 1 blanking always ends; after the last line the beam is on line 0, a new frame is flagged, the compare runs and the light-pen flag is raised exactly when the pen is down or it already was; the line is not re-evaluated; on any other line nothing changes |
| EmuVic.BeamStepFrames | src/c64_emu/vic_ii/mod.rs:257-264 | across a tick's beam events the raster line only goes back when it wraps to line 0 at the end of blanking, which is exactly when a new frame is flagged; past cycle 1 nothing changes |
| EmuVic.BeamStepReport | src/c64_emu/vic_ii/mod.rs:257-264 | only cycle 0 re-evaluates the line and the report is exactly its change |
| EmuVic.Mos656x.ClearRegs | src/c64_emu/vic_ii/mod.rs:154 | all 64 registers are zero |
| EmuLightpen.LpxAlignment | src/c64_emu/vic_ii/lightpen.rs:63-75 | the X position a trigger latches is always 2 modulo 4 |
| EmuLightpen.Lightpen.constructor | src/c64_emu/vic_ii/lightpen.rs:12-20 | a 63-cycle screen with last line 0 and nothing latched |
| EmuLightpen.Lightpen.SetScreenSize | src/c64_emu/vic_ii/lightpen.rs:22-25 | the last line is the height minus one saturating at zero and the line width is taken |
| EmuLightpen.Lightpen.Reset | src/c64_emu/vic_ii/lightpen.rs:27-31 | both coordinates zero and the latch released |
| EmuLightpen.Lightpen.Retrigger | src/c64_emu/vic_ii/lightpen.rs:40-51 | fires exactly when the latch was free; then the position is $D5 on 65-cycle lines and $D1 otherwise on line 0; otherwise the latch keeps its values |
| EmuLightpen.Lightpen.Trigger | src/c64_emu/vic_ii/lightpen.rs:53-78 | the latch is always taken; it fires exactly when it was free and the beam is not past cycle 0 of the last line; then X is LpxAt and Y the line's low byte; otherwise the coordinates are kept |
| EmuLightpen.Lightpen.Untrigger | src/c64_emu/vic_ii/lightpen.rs:80-82 | the latch is released |
| EmuLightpen.FramePenSpec | src/c64_emu/vic_ii/lightpen.rs:40-51 | at a frame start the latch is taken exactly when the pen is down; then X is $D5 on 65-cycle lines and $D1 otherwise and Y is 0; a pen up keeps the coordinates |
| EmuSprites.FlagsAt | src/c64_emu/vic_ii/sprites.rs:30-35 | flag j of a register byte is the source's test of the byte against sprite j's shifted mask |
| EmuSprites.FlagsRoundTrip | src/c64_emu/vic_ii/sprites.rs:72-80 | writing eight flags into a register byte and reading them back gives the same flags |
| EmuSprites.NonZeroFlags | src/c64_emu/vic_ii/sprites.rs:98-100 | a byte is non-zero exactly when one of its sprite flags is set |
| EmuSprites.FlagAnd | src/c64_emu/vic_ii/sprites.rs:60 | bitwise and acts sprite by sprite |
| EmuSprites.FlagXor | src/c64_emu/vic_ii/sprites.rs:60 | exclusive or acts sprite by sprite |
| EmuSprites.ToggleSpec | src/c64_emu/vic_ii/sprites.rs:59-61 | the flip-flop of a sprite flips exactly when its DMA is on and its Y expansion is set |
| EmuSprites.SharedFlag | src/c64_emu/vic_ii/sprites.rs:98-100 | the DMA test holds exactly when some sprite is named in the value and has DMA on |
| EmuSprites.CounterBounds | src/c64_emu/vic_ii/sprites.rs:33-90 | the counters stay within 6 bits under the step and the crunch; below $40 the step is +3 modulo 64 |
| EmuSprites.McAfterValue | src/c64_emu/vic_ii/sprites.rs:33 | from 0 the counter after n steps is 3n for up to 21 steps |
| EmuSprites.SpriteHeight | src/c64_emu/vic_ii/sprites.rs:33-46 | started at 0 the counter first reaches $3F (where DMA stops) after exactly 21 steps: a sprite is 21 lines high |
| EmuSprites.Sprites.constructor | src/c64_emu/vic_ii/sprites.rs:13-20 | every flip-flop set; no DMA; all counters zero |
| EmuSprites.Sprites.Reset | src/c64_emu/vic_ii/sprites.rs:22-27 | the state of a new unit |
| EmuSprites.Sprites.UpdateMc | src/c64_emu/vic_ii/sprites.rs:29-37 | exactly the sprites with DMA on advance their counter by one step; the others keep it |
| EmuSprites.Sprites.UpdateMcBase | src/c64_emu/vic_ii/sprites.rs:39-50 | sprites whose flip-flop is set copy MC into MCBASE and the others keep it; DMA stays on unless such a sprite's counter is $3F |
| EmuSprites.Sprites.CheckExpWithReg | src/c64_emu/vic_ii/sprites.rs:59-61 | each flip-flop flips exactly when its sprite has DMA on and Y expansion set |
| EmuSprites.Sprites.CheckDisplay | src/c64_emu/vic_ii/sprites.rs:63-67 | every MC is reloaded from its MCBASE |
| EmuSprites.Sprites.CheckDma | src/c64_emu/vic_ii/sprites.rs:69-81 | exactly the enabled sprites whose Y register equals the raster line's low byte and whose DMA is off start DMA with MCBASE 0 and the flip-flop set; the others are unchanged |
| EmuSprites.Sprites.LineCrunch | src/c64_emu/vic_ii/sprites.rs:83-96 | each sprite whose expansion bit is written 0 while its flip-flop is clear gets the flip-flop set and on cycle 14 its MC crunched; every other sprite is unchanged |
| EmuSprites.Sprites.IsDma | src/c64_emu/vic_ii/sprites.rs:98-100 | true exactly when some sprite named in the value has DMA on |
| EmuSprites.Sprites.Clock | src/c64_emu/vic_ii/mod.rs:273-287 | the sprite unit's part of a VIC-II tick: MC stepped at cycle 14, MCBASE at 15, a DMA check at 55 and at 56 (the expansion check at 55 being a no-op), the display reload at 58, and no change at any other cycle |
| EmuEvent.KeepCount | src/c64_emu/event.rs:147-170 | selecting entries keeps every copy of a selected entry and no copy of another |
| EmuEvent.KeepSorted | src/c64_emu/event.rs:52-59 | a selection from a run in heap order is in heap order |
| EmuEvent.Partition | src/c64_emu/event.rs:147-170 | a split of the queue into entries due at t and entries still waiting is the Due and Later split |
| EmuEvent.MinIndex | src/c64_emu/event.rs:52-59 | the heap's top: an entry that precedes every entry in (time and id) order |
| EmuEvent.FlipParity | src/c64_emu/event.rs:141-145 | each tick moves the phase along with the clock's parity |
| EmuEvent.TopWaits | src/c64_emu/event.rs:149-163 | when the heap's top still waits every entry waits |
| EmuEvent.PopStep | src/c64_emu/event.rs:155-169 | popping the due top keeps the drain's accounting: popped and left make up the queue and the popped run is in heap order before everything left |
| EmuEvent.Drained | src/c64_emu/event.rs:148-171 | when the drain stops what is left is exactly what waits and the live popped entries are exactly the live due ones in heap order |
| EmuEvent.EventContext.constructor | src/c64_emu/event.rs:73-80 | clock 0 in PHI1; no ids handed out; nothing queued |
| EmuEvent.EventContext.Phi2Time | src/c64_emu/event.rs:85-92 | the clock itself in PHI2 and one behind in PHI1 |
| EmuEvent.EventContext.Schedule | src/c64_emu/event.rs:102-112 | the next id (larger than every queued one) names a new live entry firing delay half-cycles from now moved to the edge of the phase; it is pending |
| EmuEvent.EventContext.Cancel | src/c64_emu/event.rs:115-126 | every entry with the id goes dead and stays queued; every other entry is untouched; the id is no longer pending |
| EmuEvent.EventContext.ClockTick | src/c64_emu/event.rs:140-172 | one half-cycle on with the phase flipped; exactly the due entries leave the queue; exactly the live due ones run in heap order and cancelled ones are dropped unrun; nothing still waiting runs; fired tells whether anything ran |
| EmuEvent.EventContext.Reset | src/c64_emu/event.rs:175-179 | clock 0 in PHI1 and an empty queue; the id counter keeps counting |
| EmuEvent.Drain | src/c64_emu/event.rs:148-170 | the pop loop leaves exactly the waiting entries and runs exactly the live due ones in heap order |
| EmuC64.ToCiaModelBijective | src/c64_emu/c64.rs:53-59 | the CIA mapping is one to one and reaches every CIA model |
| EmuC64.VicModelOfInjective | src/c64_emu/c64.rs:40-46 | each machine model has its own VIC-II |
| EmuC64.Page | src/c64_emu/c64.rs:255 | an address lies in one of sixteen 4K pages |
| EmuC64.PlaStateLowBits | src/c64_emu/c64.rs:298 | the state handed to the MMU depends only on the low three bits of the port value |
| EmuC64.ReadBackPlaState | src/c64_emu/c64.rs:296-299 | the state computed from the port as read back is the one computed from its data and direction: input lines high and output lines their data bit |
| EmuC64.CiaRegister | src/c64_emu/c64.rs:273 | the CIA register an I/O address selects is the address modulo 16 |
| EmuC64.VicRegister | src/c64_emu/c64.rs:269 | the VIC-II register an I/O address selects is the address modulo 64 |
| EmuC64.C64.constructor | src/c64_emu/c64.rs:97-123 | fresh chips and banks: a PAL-B VIC-II and two 6526 CIAs; RAM at its power-on pattern; the KERNAL stub installed; the standard I/O map; all-RAM mapping; counters zero and BA high |
| EmuC64.C64.SetCiaModel | src/c64_emu/c64.rs:136-140 | both CIAs get a fresh interrupt source of the mapped model |
| EmuC64.C64.SetCiaModelOf | src/c64_emu/c64.rs:138-139 | one CIA gets a fresh interrupt source of the model |
| EmuC64.C64.SetModel | src/c64_emu/c64.rs:127-134 | the VIC-II of the model is selected and reset to the last line; both TOD clocks get the given power-line rate |
| EmuC64.C64.SetKernal | src/c64_emu/c64.rs:144 | a given image is copied over the KERNAL ROM and none reinstalls the stub |
| EmuC64.C64.SetBasic | src/c64_emu/c64.rs:145 | a given image is copied over the BASIC ROM and none leaves it as it was |
| EmuC64.C64.SetChargen | src/c64_emu/c64.rs:146 | a given image is copied over the character ROM and none leaves it as it was |
| EmuC64.C64.SetBaseSid | src/c64_emu/c64.rs:150-152 | the chip behind $D400 is the given one and none installs the placeholder |
| EmuC64.C64.Reset | src/c64_emu/c64.rs:156-170 | every chip and bank is reset: chip registers zero; beam on the last line; no interrupt; CIA cycle counts kept; SID and colour RAM zero; RAM at its power-on pattern; port at power-on; reset vector restored; MMU all-RAM with its noise seed kept; counters cleared and BA high |
| EmuC64.C64.ClearCounters | src/c64_emu/c64.rs:167-169 | IRQ count zero; BA high; cycle count zero |
| EmuC64.C64.ResetAllChips | src/c64_emu/c64.rs:157-159 | the chip facts of Reset |
| EmuC64.C64.ResetAllMemory | src/c64_emu/c64.rs:160-165 | the bank facts of Reset |
| EmuC64.C64.ResetMap | src/c64_emu/c64.rs:166 | the MMU's lines low and its noise seed kept |
| EmuC64.C64.TickPeripherals | src/c64_emu/c64.rs:176-198 | one more cycle; the VIC-II, CIA 1 and CIA 2 each end in exactly the state their own one-cycle tick leaves (for a CIA, Mos652x.Tick's state, the rise of its line included); IRQ exactly when the VIC-II raised its line or CIA 1 asserted this cycle; NMI exactly when CIA 2 asserted |
| EmuC64.C64.TickAllChips | src/c64_emu/c64.rs:181-197 | each chip ends in the state its own tick leaves (for a CIA, Mos652x.Tick's state, the rise of its line included); the IRQ and NMI facts of TickPeripherals |
| EmuC64.C64.GetByte | src/c64_emu/c64.rs:254-285 | $0000 reads the direction and $0001 the port with its fall-off bits; every other address reads the bank the read map gave its page; page $D under I/O reads what the chip the I/O bank names answers, a CIA ending in the state its own read leaves; only a port read touches the fall-off bits and only an I/O read touches the noise seed or a CIA |
| EmuC64.C64.ReadPort | src/c64_emu/c64.rs:258-260 | $0000 reads the direction and $0001 the port with its fall-off bits |
| EmuC64.C64.ReadIo | src/c64_emu/c64.rs:267-283 | the VIC-II or SID or colour RAM register; for a CIA the value its own read yields, the CIA ending in the state that read leaves (an ICR read handing over and clearing the flags); the next noise byte for the floating area; $FF for an extra SID; the seed changes only for the floating area and the other CIA is untouched |
| EmuC64.C64.ReadNoise | src/c64_emu/c64.rs:280 | the seed takes one generator step and bits 16-23 are returned |
| EmuC64.C64.SetByte | src/c64_emu/c64.rs:287-331 | the byte lands in system RAM and nowhere else in it; $0000 and $0001 also go to the CPU port and re-bank the MMU; a write to page $D under I/O also reaches the one chip the I/O bank names, which ends in the state its own write leaves (VIC-II and CIA register writes, the SID chip write, the colour nybble), and leaves the others as they were; the KERNAL ROM never changes |
| EmuC64.C64.PokeRam | src/c64_emu/c64.rs:301 | RAM holds the byte at the address and nothing else in it changes |
| EmuC64.C64.WritePort | src/c64_emu/c64.rs:292-300 | the port register holds the byte and the MMU's lines are the PLA state of the port as read back |
| EmuC64.C64.PokeCpuPort | src/c64_emu/c64.rs:293-298 | the written register holds the byte and the state is that of the port as read back |
| EmuC64.C64.SetCpuPort | src/c64_emu/c64.rs:299 | the MMU's three lines are the state's three bits |
| EmuC64.C64.WriteIo | src/c64_emu/c64.rs:310-324 | the chip dispatch names ends in the state its own write leaves and every other chip, RAM, the port and the MMU are unchanged |
| EmuC64.C64.WriteVicReg | src/c64_emu/c64.rs:311-313 | the VIC-II ends in the state its own write of the register leaves; the CIAs and the banks are unchanged |
| EmuC64.C64.PokeSid | src/c64_emu/c64.rs:314 | the SID bank remembers the byte and the SID got it |
| EmuC64.C64.PokeColor | src/c64_emu/c64.rs:315 | colour RAM keeps the byte's low nybble |
| EmuC64.C64.WriteCiaOf | src/c64_emu/c64.rs:316-321 | the CIA ends in the state its own write of the register leaves; the other CIA, the VIC-II and the banks are unchanged |
| EmuC64.ReadCia | src/c64_emu/c64.rs:272-279 | the value and the new state are those of the CIA's own read of the register; the interrupt delta is dropped |
| EmuC64.WriteCia | src/c64_emu/c64.rs:316-321 | the new state is that of the CIA's own write of the register; the interrupt delta is dropped |
| EmuC64.WriteVic | src/c64_emu/c64.rs:311-313 | the new state is that of the VIC-II's own write of the register; its output is dropped |
| EmuC64.PokePort | src/c64_emu/c64.rs:293-298 | the poke and the read-back of both registers: the state handed on is the PLA state of the port as read back |
| EmuC64.NewChips | src/c64_emu/c64.rs:99-101 | a PAL-B VIC-II and two 6526 CIAs sharing no object |
| EmuC64.NewCia | src/c64_emu/c64.rs:100-101 | a new 6526 CIA made of fresh objects |
| EmuC64.NewBanks | src/c64_emu/c64.rs:103-121 | the banks of a new machine: distinct stores; RAM at its power-on pattern; the KERNAL stub; the standard I/O map |
| EmuC64.NewIo | src/c64_emu/c64.rs:109-111 | the disconnected bus and the standard I/O map made of fresh objects |
| EmuC64.NewMmu | src/c64_emu/c64.rs:113 | an all-RAM MMU with its maps built |
| EmuC64.SelectModel | src/c64_emu/c64.rs:130-133 | the VIC-II model and both TOD rates |
| EmuC64.ResetChips | src/c64_emu/c64.rs:157-159 | CIA 1 and CIA 2 and the VIC-II reset: registers zero; no interrupt; the beam on the last line; cycle counts kept |
| EmuC64.ResetMemory | src/c64_emu/c64.rs:160-165 | SID registers and colour RAM zero; RAM at its power-on pattern; port at power-on; the reset vector restored |
| EmuC64.TickChips | src/c64_emu/c64.rs:181-197 | each chip ends in the state its own tick leaves (for a CIA, Mos652x.Tick's state, the rise of its line included); the IRQ and NMI facts of TickPeripherals |
| EmuC64.TickVic | src/c64_emu/c64.rs:181-185 | the VIC-II ends in the state its own tick leaves, keeps its model, and the report says exactly whether its line went up |
| EmuC64.TickCia | src/c64_emu/c64.rs:187-195 | the CIA ends in the state Mos652x.Tick states, the rise of its line included, and the report says exactly whether its line was asserted |
| EmuC64.C64.ReadBankIo | src/c64_emu/c64.rs:269-281 | the VIC-II or SID or colour RAM register, the next noise byte for the floating area, $FF for an extra SID; no CIA changes and the seed moves only for the floating area |
| EmuC64.C64.ReadCia1 | src/c64_emu/c64.rs:272-275 | the value CIA 1's own read yields, CIA 1 ending in the state that read leaves; CIA 2 and the seed unchanged |
| EmuC64.C64.ReadCia2 | src/c64_emu/c64.rs:276-279 | the value CIA 2's own read yields, CIA 2 ending in the state that read leaves; CIA 1 and the seed unchanged |
| EmuC64.C64.SetIoByte | src/c64_emu/c64.rs:306-329 | RAM takes the byte and no other RAM byte changes; the chip the I/O bank names ends in the state its own write leaves; the other chips, the port and the MMU are unchanged |
| EmuC64.C64.SetLowByte | src/c64_emu/c64.rs:289-303 | RAM takes the byte and no other RAM byte changes; $0000 and $0001 also go to the CPU port and re-bank the MMU; no chip changes |
| EmuC64.C64.WriteChipRegs | src/c64_emu/c64.rs:311-321 | the VIC-II or the CIA the I/O bank names ends in the state its own write leaves; the other chips and the banks are unchanged |
| EmuC64.C64.WriteBankIo | src/c64_emu/c64.rs:314-324 | the SID bank remembers the byte and the SID takes the chip write, or colour RAM keeps the low nybble; a write to the floating area or an extra SID changes nothing |
| EmuC64.C64.PokeKernal | src/player/rsid_bus.rs:382-385 | the KERNAL ROM's store takes the byte at the offset and nothing else in it changes; RAM is untouched |
| EmuC64.ResetCias | src/c64_emu/c64.rs:157-158 | CIA 1 then CIA 2 reset: all registers zero; neither line asserted; cycle counts kept |
| EmuC64.TickCias | src/c64_emu/c64.rs:187-195 | CIA 1 then CIA 2 each end in the state Mos652x.Tick states, the rise of their lines included; each report says exactly whether that CIA asserted its line |
| SidEmulated.RouteSpec | src/sid_emulated.rs:361-378 | a register routes to chip reg / $20 and register reg % $20 which recombine into the byte; exactly the registers from $60 up go nowhere |
| SidEmulated.Extend | src/sid_emulated.rs:366-375 | a call on an optional chip: an absent chip stays absent and a present one gets the calls appended |
| SidEmulated.ExtendTwice | src/sid_emulated.rs:549-556 | appending calls to an optional chip twice is appending them once together |
| SidEmulated.WritesOfAppend | src/sid_emulated.rs:549-556 | the writes of two runs of calls are the writes of each in order |
| SidEmulated.ClockedAppend | src/sid_emulated.rs:549-556 | the cycles of two runs of calls add up |
| SidEmulated.RingOpsSpec | src/sid_emulated.rs:544-557 | over a ring a chip sees exactly the writes routed to it in ring order and is clocked by exactly the sum of the positive deltas |
| SidEmulated.FrameClocking | src/sid_emulated.rs:544-584 | a ring followed by a flush clocks every chip by the frame length or by the ring's cycles when it overran the frame |
| SidEmulated.Clamp16 | src/sid_emulated.rs:115 | a value inside the i16 range is kept and one outside it becomes the nearer bound |
| SidEmulated.FilterRun | src/sid_emulated.rs:413-415 | a run through the filter gives one output per input |
| SidEmulated.SilenceStaysSilent | src/sid_emulated.rs:99-116 | a reset filter fed silence stays at rest and outputs silence whatever its coefficients |
| SidEmulated.ExternalFilter.constructor | src/sid_emulated.rs:77-97 | integrators at zero and the coefficients of the clock: low-pass 12 at PAL and 11 at NTSC and high-pass 1 |
| SidEmulated.ExternalFilter.SetClock | src/sid_emulated.rs:89-97 | the coefficients of the clock and the integrators kept |
| SidEmulated.ExternalFilter.Reset | src/sid_emulated.rs:99-102 | both integrators zero |
| SidEmulated.ExternalFilter.Clock | src/sid_emulated.rs:108-116 | the integrators and output are one FilterStep: the input scaled by 2^11; the low-pass step; the high-pass step on the earlier low-pass value; the output clamped to i16 |
| SidEmulated.ExternalFilter.ClockAll | src/sid_emulated.rs:413-415 | the samples go through the filter in order: the outputs and final state are FilterRun's |
| SidEmulated.Mix | src/sid_emulated.rs:419-437 | as many pairs as asked for and pair i is SID 1 on the left and SID 2 on the right (or SID 1 again when SID 2 gave nothing) with SID 3 at half level added to both sides with saturation |
| SidEmulated.MonoMirrors | src/sid_emulated.rs:424-428 | a single SID plays the same signal on both sides |
| SidEmulated.MixPairs | src/sid_emulated.rs:422-437 | the pushing loop produces exactly Mix's pairs |
| SidEmulated.EmulatedDevice.constructor | src/sid_emulated.rs:272-315 | SID 1 sampling at the PAL clock and the given output rate; no SID 2 or 3; PAL frame; filters at rest; empty buffer |
| SidEmulated.EmulatedDevice.MakeSid | src/sid_emulated.rs:319-327 | a new chip sampling at the current clock and output rate |
| SidEmulated.EmulatedDevice.WriteToSid | src/sid_emulated.rs:361-378 | the write reaches only the chip its register routes to and only if that chip is present |
| SidEmulated.EmulatedDevice.ClockChips | src/sid_emulated.rs:395-401 | every present chip is clocked by the delta |
| SidEmulated.EmulatedDevice.ClockAndPush | src/sid_emulated.rs:386-438 | every present chip is clocked by a positive delta; when SID 1 returned samples each present chip's samples run through its filter, every filter ends in the state that run leaves, and as many mixed pairs of the filtered samples as fit below the buffer limit are appended; otherwise the buffer and the filters are unchanged |
| SidEmulated.EmulatedDevice.PushSamples | src/sid_emulated.rs:413-437 | each present chip's samples run through its filter, which ends in the state that run leaves (an absent chip's filter is untouched); the mixed pairs of the filtered samples that fit are appended to the buffer |
| SidEmulated.EmulatedDevice.Init | src/sid_emulated.rs:446-448 | always succeeds |
| SidEmulated.EmulatedDevice.SetClockRate | src/sid_emulated.rs:450-494 | the clock and frame length of the video standard; every present chip resampled at the new clock; the filter coefficients of that clock |
| SidEmulated.EmulatedDevice.AppendAll | src/sid_emulated.rs:497-503 | one call made on every present chip |
| SidEmulated.EmulatedDevice.Quiet | src/sid_emulated.rs:504-512 | the filters at rest; the frame count zero; the buffer empty |
| SidEmulated.EmulatedDevice.Reset | src/sid_emulated.rs:496-513 | every present chip is reset; the filters rest; the frame count and the buffer are cleared |
| SidEmulated.EmulatedDevice.SetStereo | src/sid_emulated.rs:515-533 | mode 1 or more adds a missing SID 2 and mode 2 or more a missing SID 3; mode 0 removes both and rests their filters; a present chip is kept; a negative mode changes nothing |
| SidEmulated.EmulatedDevice.WriteRegister | src/sid_emulated.rs:535-537 | the same routing as WriteToSid |
| SidEmulated.EmulatedDevice.RingCycled | src/sid_emulated.rs:544-557 | every present chip gets the ring's calls in ring order: clocked by each positive delta and then written; the positive deltas are added to the frame's count |
| SidEmulated.EmulatedDevice.RingEntryStep | src/sid_emulated.rs:549-556 | one ring entry: a positive delta clocked and counted; then the write routed; the buffer only grows |
| SidEmulated.EmulatedDevice.Flush | src/sid_emulated.rs:563-584 | the rest of the frame (never below zero) is clocked out; the frame's count starts again at zero; the buffer only grows |
| SidEmulated.EmulatedDevice.Mute | src/sid_emulated.rs:586-603 | the volume register $18 of every present chip is written 0; the filters rest; the frame count and buffer are cleared |
| SidEmulated.EmulatedDevice.Close | src/sid_emulated.rs:605-608 | mute then reset on every present chip; the buffer empty |
| SidEmulated.EmulatedDevice.Shutdown | src/sid_emulated.rs:610-613 | close and the audio thread told to stop |
| SidEmulated.EmulatedDevice.Drop | src/sid_emulated.rs:617-621 | mute and the audio thread told to stop |
| Playlists.Cycle | src/playlist.rs:89-96 | the repeat button always changes the mode: Off to All to Single and back to Off |
| Playlists.CycleThrice | src/playlist.rs:89-96 | three presses of the repeat button restore the mode and two never do |
| Playlists.Range | src/playlist.rs:405-406 | the unshuffled order holds 0 to n-1 each at its own position |
| Playlists.PermutationBounded | src/playlist.rs:117-120 | every index in a shuffle order that is a permutation of the list names an entry |
| Playlists.SequentialNext | src/playlist.rs:334-346 | the sequential next index always names an entry of the list |
| Playlists.SequentialPrev | src/playlist.rs:374-385 | the sequential previous index always exists and names an entry of a non-empty list |
| Playlists.SequentialPlaysInOrder | src/playlist.rs:334-346 | pressing next k times from nothing playing reaches index k-1 so the list plays in order |
| Playlists.SequentialEnd | src/playlist.rs:337-342 | next after the last track ends playback under Off and returns to the first track under All |
| Playlists.Playlist.constructor | src/playlist.rs:125-134 | a new playlist is empty with nothing playing and no repeat and no shuffle |
| Playlists.Playlist.Len | src/playlist.rs:191-193 | the number of entries |
| Playlists.Playlist.CurrentEntry | src/playlist.rs:419-421 | an entry exactly when the playing index is set and inside the list and then the entry at that index |
| Playlists.Playlist.Reshuffle | src/playlist.rs:412-416 | the shuffle order becomes some permutation of all indices and the position returns to its start |
| Playlists.Playlist.RebuildShuffle | src/playlist.rs:405-410 | the shuffle order is a permutation of the indices and in list order when shuffle is off |
| Playlists.Playlist.AddEntries | src/playlist.rs:164-167 | the entries are appended in order; the shuffle order is rebuilt: `0..len` with the position kept when not shuffling, a permutation of the longer list from position 0 when shuffling |
| Playlists.Playlist.AddFile | src/playlist.rs:137-142 | a parsed entry is appended and reported Ok, with the shuffle order rebuilt (`0..len` and the position kept, or a permutation from position 0 when shuffling); a file that fails to parse leaves the list, the shuffle order and its position unchanged and passes its error on |
| Playlists.Playlist.Remove | src/playlist.rs:170-183 | an index past the end changes nothing, shuffle position included; otherwise that entry goes, a playing entry after it keeps playing the same tune, the removed one stops, and the shuffle order is rebuilt (`0..len` with the position kept, or a permutation from position 0 when shuffling) |
| Playlists.Playlist.Clear | src/playlist.rs:185-189 | no entries and nothing playing and an empty shuffle order |
| Playlists.Playlist.Next | src/playlist.rs:315-358 | empty list gives nothing; Single repeats; otherwise the next in shuffle or list order; at the end All starts over and Off stops; a result becomes the playing index and names an entry; the empty, Single and sequential paths keep the shuffle order and position, and a shuffle step that does not wrap around under All keeps the order and advances the position by one |
| Playlists.Playlist.Prev | src/playlist.rs:362-391 | empty list gives nothing; in shuffle the previous position or the first; otherwise the sequential previous; a result becomes the playing index and names an entry; the shuffle position stays put for an empty list, when not shuffling, or when already at 0 |
| Playlists.Playlist.ToggleShuffle | src/playlist.rs:394-399 | shuffle flips; switching on reshuffles from the start and switching off leaves the order and position alone |
| Playlists.Playlist.CycleRepeat | src/playlist.rs:401-403 | the repeat mode advances to the next mode |
| Songlength.Before | src/playlist.rs:576 | the text before the first separator: it holds no separator and is a prefix of the input and is the whole input when there is none |
| Songlength.FindAppend | src/playlist.rs:576-580 | the first separator in a joined text whose front has none is found in the back and shifted by the front's length |
| Songlength.BeforeAppend | src/playlist.rs:576-580 | a front free of the separator passes through the cut unchanged |
| Songlength.ParseTimeNeedsNumbers | src/playlist.rs:577-581 | a time whose minutes part is not an unsigned number is no time |
| Songlength.TimeFormats | src/playlist.rs:573-583 | minutes then a colon then two second digits then nothing or a fraction or an attribute such as (G) read back as minutes times 60 plus seconds |
| Songlength.ClockText | src/playlist.rs:573-583 | any digit strings for minutes and seconds followed by an optional fraction or attribute read as minutes times 60 plus seconds |
| Songlength.MinSec | src/playlist.rs:580-582 | two parsed numbers combine as minutes times 60 plus seconds |
| Songlength.TimeCut | src/playlist.rs:574-576 | trimming and cutting at the first ( keep the minutes and seconds head and the fraction part |
| Songlength.TailCut | src/playlist.rs:576-579 | after the cut at ( the rest is empty or a fraction starting with . |
| Songlength.TimeHead | src/playlist.rs:574-576 | a digits colon digits head holds no whitespace and no ( so trimming and the cut leave it alone |
| Songlength.BeforeStop | src/playlist.rs:576-579 | the cut ends at the first separator that follows a separator-free front |
| Songlength.ParseShow2 | src/playlist.rs:581 | two zero-padded second digits parse back as their value |
| Songlength.LineEntry | src/playlist.rs:487-517 | a line yields an entry only with a lowercase key of at most 32 characters and at least one length and every length is at least one second |
| Songlength.Lengths | src/playlist.rs:507-511 | at most one length per word and every length is at least one second (the added second) |
| Songlength.LoadLinesWellFormed | src/playlist.rs:481-522 | every key of a loaded database is lowercase with at most 32 characters and maps to a non-empty list of lengths of at least one second |
| Songlength.InsertKeepsWellFormed | src/playlist.rs:513-515 | storing a well-formed line entry keeps the database well formed |
| Songlength.LoadLinesSnoc | src/playlist.rs:486-518 | loading one more line is inserting its entry into the database of the lines before it so a later line for a key replaces an earlier one |
| Songlength.Load | src/playlist.rs:481-522 | the database loaded line by line equals the entries of all lines inserted in order and is well formed |
| Songlength.Lookup | src/playlist.rs:526-530 | a length exactly when the lowercased MD5 is stored and the 0-based sub-tune is within its list and then that length |
| Songlength.LookupCaseInsensitive | src/playlist.rs:526-530 | the letter case of the MD5 asked for does not change the answer |
| Songlength.LookupAll | src/playlist.rs:534-537 | the list exactly when the lowercased MD5 is stored and each of its lengths is what Lookup gives for that sub-tune |
| Songlength.ApplyEntry | src/playlist.rs:547-563 | a known length is kept; otherwise the length of the selected sub-tune (1-based and saturating at 0) is filled in from the database; no other field changes |
| Songlength.ApplyToPlaylist | src/playlist.rs:541-569 | every entry of the list is replaced by ApplyEntry of the old entry and the list keeps its length |
| Songlength.ParseTime | src/playlist.rs:573-583 | a time is read only from text whose trimmed form holds a colon, and is at most minutes and seconds of `u32` range combined; TimeFormats and ClockText give its value for the database formats |
| PlaylistFiles.Resolve | src/playlist.rs:639-640 | an absolute path is kept; a relative one is joined under the playlist's directory; either way the result ends with the written path |
| PlaylistFiles.Classify | src/playlist.rs:604-637 | a trimmed line is blank or a path exactly as the rules say: a path is any non-empty line not starting with # and it is taken trimmed; EXTINF and PHOSPHOR lines carry the text after their prefix |
| PlaylistFiles.ExtinfDuration | src/playlist.rs:610-617 | the pending duration changes only to a positive value cut to 32 bits and never when the line has no comma |
| PlaylistFiles.SongOf | src/playlist.rs:623-627 | a field gives a sub-tune only when it starts with song= and the value fits in 16 bits |
| PlaylistFiles.SongFields | src/playlist.rs:622-629 | the pending sub-tune changes only to a valid 16-bit value that one of the line's fields carries |
| PlaylistFiles.FoldM3uSnoc | src/playlist.rs:603-648 | reading one more line is one more reader step on the state after the earlier lines |
| PlaylistFiles.FoldM3uAppend | src/playlist.rs:603-648 | reading two pieces of a file in turn gives the state of reading the whole |
| PlaylistFiles.PathLines | src/playlist.rs:632-638 | the path lines are at most as many as the lines and none is empty or a comment |
| PlaylistFiles.FoldM3uPaths | src/playlist.rs:598-651 | one entry per path line in order each resolved against the playlist directory and the earlier entries kept |
| PlaylistFiles.StepM3uEntries | src/playlist.rs:638-648 | a path line takes both pending values and clears them; no other line adds an entry |
| PlaylistFiles.SecondPathBare | src/playlist.rs:643-647 | metadata belongs to the next path only so of two path lines in a row the second gets none |
| PlaylistFiles.StepM3uPending | src/playlist.rs:609-636 | only an EXTINF line changes the pending duration and only a PHOSPHOR line the pending sub-tune |
| PlaylistFiles.ExtinfOf | src/playlist.rs:610-617 | a whole number before the first comma becomes the pending duration (cut to 32 bits) when positive and otherwise the pending duration stays |
| PlaylistFiles.ParseM3u | src/playlist.rs:598-651 | the loop over the file's lines returns the entries the line-by-line reader defines |
| PlaylistFiles.PhosphorFields | src/playlist.rs:622-629 | the loop over the comma-separated fields returns the sub-tune SongFields defines so the last valid song= wins |
| PlaylistFiles.Display | src/main.rs:1047-1051 | the title alone when the author is empty and otherwise text that starts with the author and ends with the title |
| PlaylistFiles.WriteM3u | src/main.rs:1035-1057 | the written text starts with the EXTM3U header line and ends with a line break |
| PlaylistFiles.Restored | src/playlist.rs:643-647 | what reading back keeps of a saved list: one entry per saved entry |
| PlaylistFiles.WriteThenRead | src/main.rs:1035-1057 | saving a list and reading it back gives every path in order with its duration except that a zero or unknown duration comes back unknown |
| PlaylistFiles.LinesOfWrite | src/main.rs:1043-1054 | the saved text's lines are the header followed by the lines of the entries |
| PlaylistFiles.HeaderSkipped | src/playlist.rs:632-635 | the EXTM3U header is a comment and leaves the reader's state unchanged |
| PlaylistFiles.ReadBody | src/playlist.rs:598-651 | the saved entries' lines read from the start restore them and leave nothing pending |
| PlaylistFiles.ItemLines | src/main.rs:1052-1053 | each saved entry is exactly two lines: its EXTINF line and its path |
| PlaylistFiles.ExtinfSingleLine | src/main.rs:1052 | the EXTINF line holds no line break when the author and title hold none |
| PlaylistFiles.ReadItem | src/playlist.rs:610-647 | reading one saved entry's two lines appends its path and positive duration and leaves nothing pending |
| PlaylistFiles.ReadPair | src/playlist.rs:610-647 | an EXTINF line then an absolute path line append that path with the line's duration |
| PlaylistFiles.PathTrimmed | src/playlist.rs:605 | an absolute path without surrounding whitespace is read as a path line unchanged by trimming |
| PlaylistFiles.ExtinfRead | src/playlist.rs:610-617 | the written EXTINF line is read as one and yields the written duration when positive |
| PlaylistFiles.ExtinfTextRead | src/playlist.rs:610-617 | EXTINF with any digits that parse as n and a title reads back n cut to 32 bits when positive |
| PlaylistFiles.ClassifyExtinf | src/playlist.rs:610 | a line whose trimmed text starts with the EXTINF prefix is classified as EXTINF with the rest |
| PlaylistFiles.PlsPath | src/playlist.rs:665-681 | a line gives a path only when it starts with File or file and holds an = and the path is never empty |
| PlaylistFiles.PlsPaths | src/playlist.rs:661-685 | at most one path per line and none empty |
| PlaylistFiles.PlsPathsAppend | src/playlist.rs:664-682 | the paths of two pieces of a file are the paths of the whole |
| PlaylistFiles.PlsEntry | src/playlist.rs:665-681 | a File entry with any number and an absolute path reads as exactly that path |
| PlaylistFiles.PlsPathsSnoc | src/playlist.rs:664-682 | one more line adds at most its own path to the end |
| PlaylistFiles.ParsePls | src/playlist.rs:661-685 | the loop over the file's lines returns the paths the line-by-line reader defines |
| PlaylistFiles.ApplyMeta | src/playlist.rs:286-293 | a saved duration replaces the entry's and a saved sub-tune is taken only within 1 to songs; no other field changes |
| PlaylistFiles.ApplyMetaKeepsSong | src/playlist.rs:289-291 | a selected sub-tune within 1 to songs stays within it after saved metadata is applied |
| PlaylistFiles.LoadM3uItems | src/playlist.rs:280-307 | the entries whose files parsed are appended in order with their metadata applied and their number is returned |
| PlaylistFiles.Applied | src/playlist.rs:280-301 | at most one entry per saved item |
| AppConfig.Default | src/config.rs:36-51 | RSID tunes are not skipped; no default length; the engine is auto; the HVSC download URL; no Ultimate 64 address or password; no remembered directories |
| AppConfig.ReplaceChar | src/config.rs:236-238 | text without the replaced character is left unchanged |
| AppConfig.StripJsonString | src/config.rs:232-243 | a value gives a string exactly when it is at least two characters long and starts and ends with a double quote |
| AppConfig.ReplaceCharAppend | src/config.rs:238 | replacing a character works piece by piece over joined text |
| AppConfig.EscapeIsEach | src/config.rs:186-187 | the two successive replacements of the writer escape each character on its own |
| AppConfig.FirstPassOfEscape | src/config.rs:236 | on escaped text the first unescaping pass turns each escaped backslash into NUL and leaves escaped quotes |
| AppConfig.SecondPassOfFirst | src/config.rs:237 | the second pass turns the escaped quotes back into quotes |
| AppConfig.ThirdPassOfSecond | src/config.rs:238 | the third pass turns the NULs back into backslashes and restores text without NUL |
| AppConfig.UnescapeEscape | src/config.rs:232-243 | unescaping undoes the writer's escaping for any text without NUL |
| AppConfig.PairAbsent | src/config.rs:236-237 | a two-character replacement whose first character never occurs changes nothing |
| AppConfig.UnescapePlain | src/config.rs:232-243 | text without backslash or NUL comes through the unescaping unchanged |
| AppConfig.StripQuote | src/config.rs:232-243 | a quoted value reads back as its unescaped inside |
| AppConfig.UrlBackslashesCollapse | src/config.rs:178-179 | the download URL is written without escaping so two backslashes in it read back as one |
| AppConfig.MatchKey | src/config.rs:105-158 | the first key in the reader's order whose quoted name starts the line together with the text after it; no earlier key matches; none when no key matches |
| AppConfig.ApplyLinesSnoc | src/config.rs:104-159 | reading one more line applies it to the settings read from the lines before |
| AppConfig.ParseJson | src/config.rs:100-162 | the loop over the text's lines returns the defaults changed by each recognised line in turn |
| AppConfig.UnknownLineIgnored | src/config.rs:105-158 | a line that starts with no quoted key changes nothing |
| AppConfig.SkipRsidExact | src/config.rs:106-112 | skip_rsid becomes true for exactly the value true and false for anything else and no other setting changes |
| AppConfig.DefaultLengthParsed | src/config.rs:113-117 | the default length changes only for a value that parses as u32 and then to that value |
| AppConfig.NullKeepsPath | src/config.rs:138-157 | a remembered path written as null leaves the setting as it was |
| AppConfig.KeysPlain | src/config.rs:171-181 | every key is made of lower-case letters and digits and underscores |
| AppConfig.KeysDistinct | src/config.rs:171-181 | no two keys are the same |
| AppConfig.QuotedPrefixFree | src/config.rs:105-158 | one quoted key never starts a line that starts with another quoted key so the order of the tests does not matter |
| AppConfig.MatchKeyFinds | src/config.rs:105-158 | a line that starts with key k quoted is recognised as key k |
| AppConfig.ValueTidy | src/config.rs:165-198 | every written value is non-empty with no surrounding blanks and no leading colon or trailing comma |
| AppConfig.LineShape | src/config.rs:104 | trimming a written line and dropping its trailing comma leave what lies between the indent and the comma |
| AppConfig.CommaDropped | src/config.rs:104 | the trailing comma is dropped and the value's own last character kept |
| AppConfig.ValueAfterColon | src/config.rs:107 | after the key the colon and the blank go and the value is left |
| AppConfig.ReadPlain | src/config.rs:232-243 | a quoted string without backslash or NUL reads back as itself |
| AppConfig.ReadEscaped | src/config.rs:232-243 | an escaped and quoted string without NUL reads back as itself |
| AppConfig.ReadPath | src/config.rs:166-171 | a remembered path reads back as itself: null as nothing and a path as that path |
| AppConfig.SetFieldRead | src/config.rs:105-158 | reading key k's written value into the settings read so far adds exactly that setting |
| AppConfig.FieldLineRead | src/config.rs:104-158 | key k's written line read into the settings of the keys before it adds key k's setting |
| AppConfig.FieldLineParts | src/config.rs:171-181 | a written key line trimmed and without its comma is the quoted key then a colon then the value |
| AppConfig.BraceIgnored | src/config.rs:104-158 | a one-character line that is no key such as a brace changes nothing |
| AppConfig.FieldLines | src/config.rs:171-181 | one written line per key |
| AppConfig.NoNewlineEscaped | src/config.rs:168 | escaping adds no line feed |
| AppConfig.FieldLineSingle | src/config.rs:171-181 | no written key line holds a line feed |
| AppConfig.FieldLineEnd | src/config.rs:171-181 | a written key line ends in a comma or its value and never in a carriage return |
| AppConfig.FieldsTextLines | src/config.rs:169-182 | the key lines come back out of the written text as its lines |
| AppConfig.FieldLinesRead | src/config.rs:104-158 | reading the first n key lines from the defaults gives the first n settings |
| AppConfig.ApplyLinesAppend | src/config.rs:104-159 | reading two pieces of text in turn is reading the whole |
| AppConfig.JsonLines | src/config.rs:165-198 | the written text's lines are the opening brace then one line per key then the closing brace |
| AppConfig.JsonRoundTrip | src/config.rs:100-198 | what to_json writes parse_json reads back unchanged for settings that a line can carry |
| AppConfig.FirstBraceRead | src/config.rs:104-158 | the opening brace changes no setting |
| AppConfig.LastBraceRead | src/config.rs:104-158 | the closing brace changes no setting |
| AppConfig.Toggled | src/config.rs:352-361 | the key is in the result exactly when it was not before and every other key is unchanged |
| AppConfig.ToggledTwice | src/config.rs:352-361 | toggling the same key twice restores the favourites |
| AppConfig.FavoriteKey | src/config.rs:318-320 | a line gives a key only when trimmed and lowercased it is exactly 32 characters |
| AppConfig.FavoriteSet | src/config.rs:316-321 | every loaded favourite is a lowercase 32-character key |
| AppConfig.FavoriteLineLoaded | src/config.rs:316-321 | every line's key is loaded |
| AppConfig.FavoriteFromLine | src/config.rs:316-321 | every loaded key comes from some line of the file |
| AppConfig.FavoriteSetSnoc | src/config.rs:316-321 | one more line adds at most its own key |
| AppConfig.FavoritesDb.constructor | src/config.rs:300-304 | no favourites |
| AppConfig.FavoritesDb.FromText | src/config.rs:311-328 | the favourites are the keys of the file's lines |
| AppConfig.FavoritesDb.Toggle | src/config.rs:352-361 | the lowercased key is flipped in or out and the answer is true exactly when it was absent and is now a favourite |
| AppConfig.FavoritesDb.IsFavorite | src/config.rs:363-365 | true exactly when the lowercased MD5 is stored |
| AppConfig.FavoritesDb.Count | src/config.rs:367-369 | the number of favourites |
| AppConfig.FavoriteCaseInsensitive | src/config.rs:363-365 | the letter case of the MD5 asked for does not change the answer |
| AppConfig.ToJson | src/config.rs:165-198 | the text opens with a `{` line and closes with a `}` line and a line feed; JsonLines and JsonRoundTrip state its key lines and that parse_json reads it back |
| UiFilter.DurationReadsBack | src/ui/mod.rs:1025-1028 | a shown play time reads back through the song-length time parser as the same number of seconds |
| UiFilter.EntryDuration | src/playlist.rs:70-75 | the known length shown as minutes and two-digit seconds or the dash placeholder when unknown |
| UiFilter.FilterPlaylist | src/ui/mod.rs:1033-1071 | the indices of exactly the entries that pass the favourites switch and the case-insensitive search in increasing order |
| UiFilter.FavoritesOnlyShown | src/ui/mod.rs:1047-1056 | with the switch on only entries whose MD5 is a favourite are shown and entries without an MD5 never are |
| UiFilter.EmptyQueryShowsAll | src/ui/mod.rs:1059-1061 | with no query and the switch off every entry is shown in order |
| UiFilter.QueryCaseIgnored | src/ui/mod.rs:1039 | the letter case of the query does not change what is shown |
| UiFilter.FavoritesNarrow | src/ui/mod.rs:1047-1056 | switching favourites-only on can only hide entries |
| UiFilter.FormatQuery | src/ui/mod.rs:1063-1068 | the query rsid finds every RSID tune and psid every PSID tune |
| App.WithDefault | src/main.rs:903-908 | an entry ends with a length: its own when it had one and otherwise the default |
| App.ApplyDefaultLength | src/main.rs:901-912 | every entry is replaced by WithDefault of the old entry and the list keeps its length |
| App.WithDefaultIdempotent | src/main.rs:901-912 | applying a default a second time with any value changes nothing |
| App.ClearDefaultLengths | src/main.rs:915-921 | every entry loses its length and nothing else about it changes |
| App.ClearedThenDefaulted | src/main.rs:880-888 | with a default set, after clearing the database pass then the default give each entry its database length when there is one and the default otherwise |
| App.SonglengthsPass | src/main.rs:880-888 | an entry keeps everything but its length; a known length is kept; with a default set every entry ends with a length |
| App.ClearedThenPass | src/main.rs:544-550 | clearing then `apply_songlengths` gives the length LengthFor gives: the database's, else the default when set; with the default at 0 an entry the database does not know stays without a length |
| App.ParseHexAddr | src/main.rs:1071-1081 | an address that parses fits in 16 bits |
| App.HexBody | src/main.rs:1073-1079 | one dollar prefix is dropped; otherwise one 0x or 0X prefix; otherwise nothing; the result is a suffix of the input |
| App.ShowHex | src/main.rs:1080 | hex digits without leading zeros that read back as the number |
| App.HexReads | src/main.rs:1080 | hex digits not starting with + read as their value when it fits in 16 bits |
| App.HexAddrBare | src/main.rs:1071-1081 | an address written as bare hex digits reads back as itself |
| App.HexAddrDollar | src/main.rs:1071-1081 | an address written after a dollar sign reads back as itself |
| App.DollarAddr | src/main.rs:1073-1074 | after a dollar sign the address is the hex reading of the rest |
| App.HexAddrZeroX | src/main.rs:1071-1081 | an address written after 0x or 0X reads back as itself |
| App.HexAddrEmpty | src/main.rs:1071-1081 | an empty argument or a bare prefix is no address |
| App.HexAddrTooLarge | src/main.rs:1071-1081 | hex digits past FFFF are no address |
| App.NextSubtune | src/main.rs:243-250 | the following sub-tune capped at the count and requested only when it differs from the current one |
| App.NextSubtuneWraps | src/main.rs:245 | at the top of the 16-bit range the increment wraps and the request is for sub-tune 0 |
| App.PrevSubtune | src/main.rs:252-259 | the previous sub-tune not below the first and requested only when it differs from the current one |
| App.NextThenPrev | src/main.rs:243-259 | stepping forward then back returns to the same sub-tune |
| App.SubtuneStepsInRange | src/main.rs:243-259 | from a sub-tune in range both steps stay within 1 to the count |
| App.SelectionAfterRemove | src/main.rs:299-303 | no selection in an empty list and otherwise the same position clamped to the last entry |
| App.RemoveSelected | src/main.rs:293-306 | with a selection the player stops exactly when it is the playing entry; an entry in range is removed and the playing index moves as AdjustCurrent says; an index past the end changes nothing; the selection moves as SelectionAfterRemove says; without one nothing happens |
| App.LengthFor | src/main.rs:826-840 | the database length of the sub-tune when there is one and otherwise the default when it is set and otherwise none |
| App.AutoAdvance | src/main.rs:811-876 | nothing happens until the playing tune's length has run out; then the next sub-tune with its length, or the first sub-tune again and the playlist's next track: the same track under repeat Single, SequentialNext's track without shuffle, a stop exactly when SequentialNext ends the list |
| VersionCheck.ParseParts | src/version_check.rs:96 | at most one number per piece and every number fits in 32 bits since pieces that do not parse are dropped |
| VersionCheck.ShowEach | src/version_check.rs:117-123 | each number written as its decimal digits |
| VersionCheck.IsNewerVersion | src/version_check.rs:95-111 | the loop over the longer length with its early returns answers exactly the component-wise comparison Newer |
| VersionCheck.NewerWitness | src/version_check.rs:101-110 | newer only when some component is larger and every earlier one is equal with missing components read as 0 |
| VersionCheck.NewerAt | src/version_check.rs:101-110 | a first larger component with all earlier ones equal makes the version newer |
| VersionCheck.NotNewerWhenEqual | src/version_check.rs:110 | versions whose components all agree are not newer than each other |
| VersionCheck.Irreflexive | src/version_check.rs:95-111 | no version is newer than itself |
| VersionCheck.Asymmetric | src/version_check.rs:95-111 | a newer version is never also older |
| VersionCheck.Total | src/version_check.rs:95-111 | any two versions are ordered one way or the other or agree in every component |
| VersionCheck.TrailingZeroLatest | src/version_check.rs:102-103 | a trailing zero component on the latest version changes nothing |
| VersionCheck.TrailingZeroCurrent | src/version_check.rs:102-103 | a trailing zero component on the current version changes nothing |
| VersionCheck.TrailingZerosEqual | src/version_check.rs:102-103 | versions that differ only in a trailing zero are not newer than each other |
| VersionCheck.ParsePartsAppend | src/version_check.rs:96 | parsing pieces one after another is parsing them together |
| VersionCheck.NonNumericDropped | src/version_check.rs:96 | a piece that is not a u32 is dropped from the comparison |
| VersionCheck.ParseShowEach | src/version_check.rs:96 | numbers written as decimal pieces parse back as those numbers |
| VersionCheck.VersionRoundTrip | src/version_check.rs:96 | a version written dot-separated from its numbers parses back as those numbers |
| VersionCheck.ShowDigits | src/version_check.rs:117-123 | a three-digit version is written as digit dot digit dot digit |
| VersionCheck.ThreeDigitVersion | src/version_check.rs:117-123 | a version of three single digits parses as those three numbers |
| VersionCheck.NewerPatch | src/version_check.rs:119 | 0.3.4 is newer than 0.3.3 |
| VersionCheck.NewerMinor | src/version_check.rs:120 | 0.4.0 is newer than 0.3.9 |
| VersionCheck.NewerMajor | src/version_check.rs:121 | 1.0.0 is newer than 0.9.9 |
| VersionCheck.NotNewerSame | src/version_check.rs:122 | 0.3.3 is not newer than itself |
| VersionCheck.NotNewerOlder | src/version_check.rs:123 | 0.3.2 is not newer than 0.3.3 |
| VersionCheck.TwoDigitVersion | src/version_check.rs:96 | a version of two single digits parses as those two numbers |
| VersionCheck.ShortVersionSame | src/version_check.rs:101-110 | 1.0 and 1.0.0 are not newer than each other |
| VersionCheck.OneZeroParts | src/version_check.rs:96 | 1.0 parses as 1 and 0 and 1.0.0 as 1 and 0 and 0 |
| VersionCheck.PlatformSuffix | src/version_check.rs:32-40 | a download ending exists for Windows and macOS and Linux and for no other system |
| VersionCheck.FirstEndingWith | src/version_check.rs:42-45 | the first asset whose name ends with the suffix and no earlier one does; none when no asset does |
| VersionCheck.FindPlatformAsset | src/version_check.rs:31-46 | the URL of the first asset whose name carries this system's ending; none on other systems or when no asset fits |
| VersionCheck.ReleaseUpdate | src/version_check.rs:76-92 | an update exactly when the release is newer with any leading v ignored; it carries the tag and this system's asset URL or the release page when there is none |
| VersionCheck.SameVersionNotOffered | src/version_check.rs:76-92 | a release tagged with the running version with or without a leading v is not offered |

## Left out

- Socket, file and process I/O: the Unix socket setup of the daemon and client (`run` and `connect`), the daemon installer, the ROM directory search, reading and saving the settings, favourites, playlist and Songlength files, `download_songlength`, the file dialogs, `PlaylistEntry::from_path` (its result is an input of `AddFile`) and `add_directory` (walking a directory tree).
- The extension check of `load_playlist_file` and its `is_dir` branches: the M3U branch is modelled as `PlaylistFiles.LoadM3uItems` over already-parsed entries; the PLS branch, which adds each path of `PlaylistFiles.ParsePls` with `add_file`, has no method of its own.
- `save_m3u` in src/playlist.rs is dead code; the M3U writer modelled is `write_m3u` in src/main.rs.
- Concurrency and timing: the player thread, its command channel and `player_loop`, `wait_until`, `run_until`, `run_rsid_init`, `run_rsid_sub`, `spawn_player`, `send_status`, `ensure_hardware`, `cleanup` and `stop_playback`; the audio thread, cpal and the mutex around the sample ring; the `LoadingProgress` mutex.
- The 6502 CPU is a foreign library: its registers are plain values passed to the stack-frame builders, and the opcode cycle tables (`opcode_cycles`, `opcode_cycles_banked`) are constant tables whose contents are not checked.
- The resid SID chips are foreign: each chip is the log of the calls made on it, and the samples it returns are inputs. The `clock_sid` sampling loop, including its 50000-iteration guard, is one clock call per frame step.
- Floating point: the RC filter coefficients of `set_clock_frequency` (the model takes them as the integer constants they evaluate to), `cpu_freq`, `get_time_ms`, `frame_rate`, `voice_levels` and the clock rates of the machine models; `SetModel` takes the rate as a parameter.
- `cpu_read_internal` and `io_read` in src/c64_emu/c64.rs are dead code, and so is `vol_reg` in src/player/memory.rs.
- `setup_machine_state` and `setup_rsid_cia_defaults` of the RSID bus (register presets poked through the bus) are not modelled.
- `compute_hvsc_md5` (an MD5 digest) is not modelled; entries carry their MD5 as a value.
- Stored closures: the CPU-port listener, the floating-bus byte function and the event actions are opaque. An event action is an action number, so actions that schedule new events while the queue drains are not modelled.
- The shuffle of `reshuffle` uses a random generator; the model accepts any permutation of the indices.
- Text is ASCII: Unicode lowercasing, lossy UTF-8 decoding of the SID header strings and of paths, and `char::is_whitespace` beyond ASCII are not modelled. Paths are Unix paths.
- `apply_default_length` counts the entries it fills only to log them, and `apply_to_playlist` counts hits and misses only to log them; the counts are not modelled.
- The filter rebuild after `RemoveSelected` and the playback started by `play_track` are outside the model; `App.AutoAdvance` returns what it asks of the player instead.
- The GitHub request of `check_github_release` uses the network; the model starts from the fetched tag, page URL and assets. The operating system is a parameter in place of `cfg!(target_os)`.
- The iced user interface (views, subscriptions, themes) and the visualiser; the Ultimate 64 REST device; `SidDirect` and the `SidDevice` trait.
- Songlength.ParseTime: computes `min * 60 + sec` over unbounded integers; the source's `u32` arithmetic overflows once the total passes 4294967295.
- Songlength.Lengths: adds the extra second over unbounded integers. The source's `u32` `d + 1` (src/playlist.rs:513) overflows for a time of exactly 4294967295 seconds (e.g. `71582788:15`): a debug build panics and a release build stores 0. So the "at least one second" of `Lengths` and `Songlength.LineEntry` holds only for times below that bound.
- SidMapping.NewMapper: models the release build, where `base + 0x1F` wraps and a base above $FFE0 maps nothing; a debug build panics on such a base instead.
- App.NextSubtune: models the release build, where the 16-bit increment wraps; a debug build panics instead.
- AppConfig.JsonRoundTrip: requires settings a line can carry: no line feed or NUL in any string, and no backslash in the download URL or engine name, which `to_json` writes unescaped (`AppConfig.UrlBackslashesCollapse` shows what goes wrong otherwise).
- EmuLightpen.Lightpen.Trigger: requires a line cycle of at least 13, counting a wrap into the previous line; the source's unsigned subtraction would underflow otherwise.
- PlayerRsidBus.RsidBus.SetByte: captures through the corrected guard (`PlayerRsidBus.Capture`), not the $D400-$D7FF check of src/player/rsid_bus.rs:372-373; the check as written is `PlayerRsidBus.CaptureAsWritten`, compared with the corrected one by `PlayerRsidBus.CaptureAgrees` and `PlayerRsidBus.SecondSidDropped`.
- PlayerRsidBus.RsidBus.Captured: states the shadow bound for the corrected guard, not for the $D400-$D7FF check as written.
- PlayerRsidBus.RsidBus.CaptureWrite: appends the writes the corrected guard captures, not those of the $D400-$D7FF check as written.

## Findings

| source | as written | input that shows it | evidently intended | confidence | as-written member | corrected member |
|---|---|---|---|---|---|---|
| src/player/rsid_bus.rs:372 | the RSID bus captures SID writes only for $D400-$D7FF | a stereo tune with its second SID at $DE00: a write to $DE00 is mapped to register $20 but dropped | every I/O-page address the SID mapper maps is captured as on the PSID bus | medium, latent: src/player/mod.rs:5-6 does not declare the module, so RSID tunes play on the PSID bus; not executed | PlayerRsidBus.SecondSidDropped | PlayerRsidBus.CaptureSpec |
