# LoveNes core in Dafny

A model of the emulation core of LoveNes, a cycle-stepped NES emulator
written in C#. The model covers:

- the system address bus: slave windows, overlap rejection, the lazily
  rebuilt 64 KiB dispatch tables, and the bus-ownership token;
- both revisions of the 6502 engine:
  - the older self-contained `CPU.cs`;
  - the newer one split over `CPU.OpCode.cs`, `CPU.OpCodeStatus.cs` and
    `CPU.MicroCode.cs`;
- the PPU's scanline/dot timing and its registers;
- nametable mirroring;
- the OAM DMA unit;
- on-chip RAM, mapper 0 and the cartridge faces;
- the master clock's tick order;
- the console wiring;
- the iNES file loader and its big-endian span reader.

Each file is modelled in its own form:

- Objects whose methods update fields become Dafny classes with `modifies`
  clauses. Each method's `ensures` ties the new state to a pure function of
  the old state.
- The step functions of the 6502 engines are pure functions over a
  `Machine` record. Each newer-engine tick is one `Tick`, and whole
  instructions are proved tick by tick (`CpuSequences`,
  `LegacyCpuSequences`).
- Bus masters (the CPU and the DMA unit) see memory through
  `MasterBus.FlatBus`. It holds the bus contents as one 64 KiB memory, the
  `Value` latch and the ownership flag.
- .NET exceptions become the `Err` and `Fail` values of `Wrappers`.

Module layout, one source file per module group:

| module | source |
|---|---|
| `Bytes`, `Wrappers`, `ByteStore` | C# integer conversions, exceptions, array access |
| `AddressBus` | `Bus.cs` |
| `MasterBus` | `IBusMasterClient` in `Bus.cs` |
| `Processor` | `ProcessorRegisters`, `ProcessorStatus`, interrupt vectors in `CPU.cs` |
| `CpuState`, `CpuMicroCode`, `CpuOpCodeStatus`, `CpuOpCode`, `CpuEngine`, `CpuSequences` | `CPU.MicroCode.cs`, `CPU.OpCodeStatus.cs`, `CPU.OpCode.cs` |
| `LegacyCpu`, `LegacyCpuAddressing`, `LegacyCpuEngine`, `LegacyCpuSequences` | `CPU.cs` |
| `PictureUnit` | `PPU.cs` |
| `Mirroring`, `Nametables` | `NametableMirrorController.cs` |
| `OamDma` | `OamDmaController.cs` |
| `OnChipMemory`, `Mappers`, `Cartridges` | `OnChipRAM.cs`, `Mappers/Mapper0.cs`, `Cartridge.cs` |
| `Clocks` | `Clock.cs` |
| `NesSystems` | `NesSystem.cs` |
| `NesFiles`, `SpanReading` | `IO/NesFile.cs`, `IO/SpanReader.cs` |

## Model

| member | source | states |
|---|---|---|
| AddressBus.OverlapsSymmetric | src/LoveNes/Bus.cs:166-169 | `Range.Overlaps` is symmetric |
| AddressBus.OverlapsIffIntersect | src/LoveNes/Bus.cs:166-169 | for non-empty ranges, `Overlaps` holds exactly when the half-open intervals share an address |
| AddressBus.TruncatedEndMissesOverlap | src/LoveNes/Bus.cs:75-82 | as written, the 16-bit `End` of the window 0x4020 + 0xBFE0 is 0, so a window registered inside it is not rejected although both cover 0x5000 |
| AddressBus.SelectsIsContains | src/LoveNes/Bus.cs:133-136 | the offset test of `FindSlaveRaw` accepts an address exactly when it lies in `[base, base + size)` |
| AddressBus.LookupFirst | src/LoveNes/Bus.cs:128-142 | the lookup returns the first window in list order that accepts the address, at offset `address - base`; it returns null exactly when no window accepts it |
| AddressBus.LookupUnique | src/LoveNes/Bus.cs:128-142 | among non-overlapping windows, an address resolves to the one window that covers it |
| AddressBus.InsertElements | src/LoveNes/Bus.cs:86 | `SortedList.Add` adds exactly the new entry (multiset equality) |
| AddressBus.InsertMember | src/LoveNes/Bus.cs:86 | every entry after an insertion is the new one or an old one |
| AddressBus.InsertSorted | src/LoveNes/Bus.cs:31-32 | insertion keeps the list in the comparer's descending key order |
| AddressBus.InsertNonOverlapping | src/LoveNes/Bus.cs:77-87 | inserting a window that clashes with none keeps all windows disjoint |
| AddressBus.LookupInsertSkips | src/LoveNes/Bus.cs:128-142 | a window that does not accept the address leaves its lookup unchanged wherever it is inserted |
| AddressBus.LookupAfterInsert | src/LoveNes/Bus.cs:77-87 | after a successful registration, the new window's addresses resolve to it and every other address resolves as before |
| AddressBus.AddToPreserves | src/LoveNes/Bus.cs:77-87 | a successful per-list registration keeps the list sorted and disjoint, and the new window takes exactly its own addresses |
| AddressBus.AddSlaveOutcome | src/LoveNes/Bus.cs:73-95 | an overlap in a requested direction throws ArgumentOutOfRange: a read-side clash changes nothing, a write-side clash leaves the read list already extended; on success the window is in the read list iff Read was asked for, in the write list iff Write was, and the cache is dirty |
| AddressBus.ReadOnlyAndWriteOnlyShare | src/LoveNes/Bus.cs:89-92 | a read-only and a write-only window at the same addresses are both accepted |
| AddressBus.FindClash | src/LoveNes/Bus.cs:79-84 | the overlap scan, taken on the windows' real extent `[base, base + size)` rather than on the 16-bit truncated `End` the source builds: it reports a clash exactly when some registered window overlaps the new one |
| AddressBus.FindSlaveRaw | src/LoveNes/Bus.cs:128-142 | the scan returns the lookup of the address, by loop invariant |
| AddressBus.Bus.constructor | src/LoveNes/Bus.cs:29-36 | both lists empty, the cache dirty, two 64 KiB tables, the bus free |
| AddressBus.Bus.Acquire | src/LoveNes/Bus.cs:38-41 | sets the in-use flag |
| AddressBus.Bus.TryAcquire | src/LoveNes/Bus.cs:43-49 | returns true iff the bus is free, and changes nothing |
| AddressBus.Bus.Release | src/LoveNes/Bus.cs:51-54 | clears the in-use flag |
| AddressBus.Bus.AddToList | src/LoveNes/Bus.cs:77-87 | the local `AddSlave(slaves)` with the corrected, untruncated overlap test: one list changes as the registration function says, the other list is unchanged, and the bus stays well formed |
| AddressBus.Bus.AddSlave | src/LoveNes/Bus.cs:73-95 | the outcome and the new lists and dirty flag are those of the registration function, whose overlap test is the corrected, untruncated one |
| AddressBus.AsWrittenAgreesBelowTop | src/LoveNes/Bus.cs:75-84 | while no window reaches 0x10000, the registration with the truncated `End` as written and the corrected registration give the same result |
| AddressBus.AsWrittenAcceptsInner | src/LoveNes/Bus.cs:75-87 | as written, a window at 0x5000 + 0x10 is added inside the registered cartridge window 0x4020 + 0xBFE0; the corrected registration rejects it with ArgumentOutOfRange |
| AddressBus.Bus.FindSlave | src/LoveNes/Bus.cs:104-121 | a dirty cache is rebuilt so that every table entry equals the lookup over the current lists, and the flag is cleared; the result is the table entry, or AccessViolation when the entry is empty |
| AddressBus.Bus.Read | src/LoveNes/Bus.cs:56-60 | `Value` becomes the selected slave's byte at the offset; an unmapped address throws and leaves `Value` alone |
| AddressBus.Bus.Write | src/LoveNes/Bus.cs:62-66 | the selected slave receives the current `Value` at the offset; an unmapped address throws |
| MasterBus.StoreLoad | src/LoveNes/Bus.cs:56-66 | writing a latched byte and reading it back gives the byte; other addresses keep their contents |
| ByteStore.WriteThenRead | src/LoveNes/OnChipRAM.cs:40-48 | a store then a load at the same index gives the stored byte, other indices read as before, and the length is kept; a store past the end fails exactly when a load there does |
| ByteStore.Zeros | src/LoveNes/OnChipRAM.cs:27-30 | a cleared array has the right size and reads 0 everywhere |
| OnChipMemory.OnChipRAM.constructor | src/LoveNes/OnChipRAM.cs:21-25 | a fresh zeroed array of the given size |
| OnChipMemory.OnChipRAM.MemoryMapSize | src/LoveNes/OnChipRAM.cs:12 | the footprint is the array's length |
| OnChipMemory.OnChipRAM.OnPowerUp | src/LoveNes/OnChipRAM.cs:27-30 | every byte becomes 0, by loop invariant |
| OnChipMemory.OnChipRAM.Read | src/LoveNes/OnChipRAM.cs:40-43 | `ram[a]` for a below the size; IndexOutOfRange otherwise |
| OnChipMemory.OnChipRAM.Write | src/LoveNes/OnChipRAM.cs:45-48 | only `ram[a]` changes; a store past the end throws and changes nothing |
| Mappers.Mapper0.constructor | src/LoveNes/Mappers/Mapper0.cs:11-14 | the mapper keeps the caller's array itself, not a copy |
| Mappers.Mapper0.Read | src/LoveNes/Mappers/Mapper0.cs:16-19 | `rom[a]` for a below the length; IndexOutOfRange otherwise |
| Mappers.Mapper0.Write | src/LoveNes/Mappers/Mapper0.cs:21-24 | the store is accepted and changes only `rom[a]` |
| Cartridges.Cartridge.constructor | src/LoveNes/Cartridge.cs:17-21 | both providers refer back to this cartridge, and there is no mapper yet |
| Cartridges.Cartridge.InsertNesFile | src/LoveNes/Cartridge.cs:23-26 | a fresh mapper over the given image replaces the current one |
| Cartridges.MapperRead | src/LoveNes/Cartridge.cs:39-42 | forwards to the mapper at the same offset; NullReference before a cartridge is inserted |
| Cartridges.MapperWrite | src/LoveNes/Cartridge.cs:44-47 | forwards the store to the mapper at the same offset; NullReference before a cartridge is inserted |
| Cartridges.CpuSlaveProvider.constructor | src/LoveNes/Cartridge.cs:34-37 | keeps the owning cartridge |
| Cartridges.CpuSlaveProvider.Read | src/LoveNes/Cartridge.cs:39-42 | the CPU face reads the current mapper at the same offset |
| Cartridges.CpuSlaveProvider.Write | src/LoveNes/Cartridge.cs:44-47 | the CPU face writes the current mapper at the same offset |
| Cartridges.PpuSlaveProvider.constructor | src/LoveNes/Cartridge.cs:56-59 | keeps the owning cartridge |
| Cartridges.PpuSlaveProvider.Read | src/LoveNes/Cartridge.cs:61-64 | the PPU face reads the same mapper at the same offset |
| Cartridges.PpuSlaveProvider.Write | src/LoveNes/Cartridge.cs:66-69 | the PPU face writes the same mapper at the same offset |
| Cartridges.WindowsAlias | src/LoveNes/Cartridge.cs:37-69 | the two faces alias one array: a byte stored through either is read back by both at that offset, and other offsets are unchanged |
| Clocks.CallsOrder | src/LoveNes/Clock.cs:52-53 | the i-th call of a `ForEach` broadcast goes to the i-th registered sink |
| Clocks.CallsLength | src/LoveNes/Clock.cs:52-53 | a broadcast makes one call per registered sink |
| Clocks.CallsSnoc | src/LoveNes/Clock.cs:33-45 | after one more registration, a broadcast is the old broadcast followed by a call to the new sink |
| Clocks.CallsCount | src/LoveNes/Clock.cs:52-53 | each sink receives the hook as often as it is registered |
| Clocks.Repeat3 | src/LoveNes/Clock.cs:71-72 | three passes are the call list three times over |
| Clocks.CycleTickCount | src/LoveNes/Clock.cs:69-72 | in one master cycle a 1x sink ticks once per registration and a 3x sink three times, and no power-up call is made |
| Clocks.NoOtherHook | src/LoveNes/Clock.cs:52-53 | a broadcast makes only calls of its own hook |
| Clocks.CpuThenThreePpuTicks | src/LoveNes/Clock.cs:69-72 | with the CPU as the only 1x sink and the PPU as the only 3x sink, a master cycle ticks CPU, PPU, PPU, PPU |
| Clocks.Clock.constructor | src/LoveNes/Clock.cs:21-27 | both lists empty, age 0, the given frequency |
| Clocks.Clock.AddSink | src/LoveNes/Clock.cs:33-36 | appends to the 1x list |
| Clocks.Clock.Add3TimesSink | src/LoveNes/Clock.cs:42-45 | appends to the 3x list |
| Clocks.Clock.Broadcast | src/LoveNes/Clock.cs:52 | `ForEach` calls the hook on every sink in list order, by loop invariant |
| Clocks.Clock.PowerUp | src/LoveNes/Clock.cs:50-55 | power-up reaches every 1x sink in order, then every 3x sink, and the age becomes 0 |
| Clocks.Clock.MasterCycle | src/LoveNes/Clock.cs:69-75 | one cycle: every 1x sink ticks, then three full passes over the 3x sinks; the age rises by exactly 1 |
| Clocks.Clock.CatchUp | src/LoveNes/Clock.cs:67-76 | `updateTimes` cycles when it is positive, none otherwise; the age rises by that number |
| Clocks.Clock.Reset | src/LoveNes/Clock.cs:83-87 | reset reaches the 1x sinks and then the 3x sinks; the age is untouched |
| NesSystems.WiringStep | src/LoveNes/NesSystem.cs:36-43 | each `AddSlave` of the constructor passes and puts its window at the front of both lists; after the fifth, both lists are the system map |
| NesSystems.NoClash | src/LoveNes/Bus.cs:77-87 | a window above every registered one clashes with none and goes to the front of the list |
| NesSystems.LookupCons | src/LoveNes/Bus.cs:131-139 | the lookup tries the front window first |
| NesSystems.PowerUpWritesUnmapped | src/LoveNes/NesSystem.cs:34-43 | no window of the wiring covers the older CPU's power-up writes to 0x4017, 0x4015 and 0x4000..0x400F, so each of them throws AccessViolation on the system bus |
| NesSystems.SystemMapLookup | src/LoveNes/NesSystem.cs:34-43 | every address below 0x2000 reaches the RAM at offset `a mod 0x800`; 0x4020 and up reach the cartridge at `a - 0x4020`; 0x2000..0x401F is unmapped in this wiring |
| NesSystems.Wire | src/LoveNes/NesSystem.cs:36-43 | the constructor's five registrations leave both lists equal to the system map |
| NesSystems.NesSystem.constructor | src/LoveNes/NesSystem.cs:24-44 | the CPU and then the RAM are the 1x sinks; the RAM, zeroed, is at 0x0000, 0x0800, 0x1000 and 0x1800, and the cartridge at 0x4020, for both directions |
| NesSystems.NesSystem.PowerUp | src/LoveNes/NesSystem.cs:49-52 | the clock's power-up broadcast |
| NesSystems.NesSystem.Reset | src/LoveNes/NesSystem.cs:57-60 | the clock's reset broadcast |
| NesSystems.WiredOrder | src/LoveNes/NesSystem.cs:30-35 | on the wired console, power-up reaches the CPU and then the RAM, and a master cycle ticks the CPU and then the RAM |
| OamDma.StepTransfers | src/LoveNes/OamDmaController.cs:42-48 | an enabled tick copies the byte at the source address to 0x2014 and leaves every other byte alone |
| OamDma.TransferProgress | src/LoveNes/OamDmaController.cs:34-56 | after a start at page p and k <= 256 ticks: the counter is k mod 256 and the source is (p << 8) + k; the transfer and the bus hold last until the 256th tick; only 0x2014 has been written |
| OamDma.TransferEnds | src/LoveNes/OamDmaController.cs:42-56 | once the 256th tick has switched the transfer off, further ticks change nothing |
| OamDma.OamDmaController.constructor | src/LoveNes/OamDmaController.cs:16-19 | the counters start at zero, disabled |
| OamDma.OamDmaController.Read | src/LoveNes/OamDmaController.cs:21-24 | a read always throws NotSupported |
| OamDma.OamDmaController.Write | src/LoveNes/OamDmaController.cs:26-32 | offset 0 starts a transfer from page `value`; any other offset throws and changes nothing |
| OamDma.OamDmaController.StartOamDma | src/LoveNes/OamDmaController.cs:34-40 | count 0, source `page << 8`, bus acquired, enabled |
| OamDma.OamDmaController.OnTick | src/LoveNes/OamDmaController.cs:42-56 | the new state and bus are one step of the transfer function |
| Mirroring.ModeOf | src/LoveNes/IO/NesFile.cs:70 | the cast into `MirroringMode`: 0 is Horizontal, 1 is Vertical, and every other integer is a value that names no member |
| Nametables.LocateWindows | src/LoveNes/NametableMirrorController.cs:32-63 | horizontal mode: bank `a / 0x800`; vertical mode: bank `(a / 0x400) mod 2`; in both the index is `a mod 0x400`; an address from 0x1000 up runs off the bank (IndexOutOfRange); an undefined mode throws ArgumentOutOfRange |
| Nametables.SameCellIffMirrored | src/LoveNes/NametableMirrorController.cs:36-53 | two addresses below 0x1000 designate the same byte exactly when they are equal or mirror images in the paired window |
| Nametables.WriteThenRead | src/LoveNes/NametableMirrorController.cs:22-30 | after a write, the written address and its mirror image read the written byte, and every other address reads as before |
| Nametables.NametableMirrorController.constructor | src/LoveNes/NametableMirrorController.cs:16-20 | two distinct zeroed 1 KiB banks; the mode is the enum's zero value |
| Nametables.NametableMirrorController.SetMirroringMode | src/LoveNes/NametableMirrorController.cs:11 | the mode property's setter |
| Nametables.NametableMirrorController.Read | src/LoveNes/NametableMirrorController.cs:22-25 | the byte of the designated bank cell, or the exception of the mapping |
| Nametables.NametableMirrorController.Write | src/LoveNes/NametableMirrorController.cs:27-30 | stores through the designated reference, so exactly that bank cell changes; on an exception nothing changes |
| SpanReading.BigEndianBound | src/LoveNes/IO/SpanReader.cs:27-60 | an n-byte big-endian reading is below 256^n |
| SpanReading.DecodeEncode | src/LoveNes/IO/SpanReader.cs:27-60 | encoding a value that fits in n bytes and reading it back gives the value |
| SpanReading.EncodeDecode | src/LoveNes/IO/SpanReader.cs:27-60 | reading n bytes and encoding the value at width n gives the bytes back |
| SpanReading.SignedRange | src/LoveNes/IO/SpanReader.cs:48-60 | a two's-complement reading lies in the signed range of its width; it is the unsigned value or that value minus 256^width; it is non-negative exactly when the unsigned value is below the half |
| SpanReading.BigEndian1 | src/LoveNes/IO/SpanReader.cs:62-73 | a one-byte span reads as its byte |
| SpanReading.BigEndian2 | src/LoveNes/IO/SpanReader.cs:27-32 | two bytes read as `b0 << 8 \| b1` |
| SpanReading.BigEndian4 | src/LoveNes/IO/SpanReader.cs:34-39 | four bytes read as `b0 << 24 \| b1 << 16 \| b2 << 8 \| b3` |
| SpanReading.PeekEncoded | src/LoveNes/IO/SpanReader.cs:27-60 | a value written big-endian at the front of a span is what the next read returns |
| SpanReading.SpanReader.constructor | src/LoveNes/IO/SpanReader.cs:22-25 | the reader starts on the given bytes |
| SpanReading.SpanReader.Advance | src/LoveNes/IO/SpanReader.cs:128-131 | drops the first `count` bytes; a count outside the span throws ArgumentOutOfRange and changes nothing |
| SpanReading.SpanReader.ReadUnsigned | src/LoveNes/IO/SpanReader.cs:27-46 | the read-then-advance pattern: the first `width` bytes as an unsigned number below 256^width, and the span moves past them; a short span throws and stays put |
| SpanReading.SpanReader.PeekAsByte | src/LoveNes/IO/SpanReader.cs:62-66 | the first byte, without advancing; an empty span throws |
| SpanReading.SpanReader.ReadAsByte | src/LoveNes/IO/SpanReader.cs:68-73 | the first byte, and the span shrinks by one; an empty span throws |
| SpanReading.SpanReader.ReadAsUnsignedShort | src/LoveNes/IO/SpanReader.cs:27-32 | `b0 << 8 \| b1`, and the span moves by two; a shorter span throws |
| SpanReading.SpanReader.ReadAsUnsignedInt | src/LoveNes/IO/SpanReader.cs:34-39 | `b0 << 24 \| b1 << 16 \| b2 << 8 \| b3`, and the span moves by four; a shorter span throws |
| SpanReading.SpanReader.ReadAsUnsignedLong | src/LoveNes/IO/SpanReader.cs:41-46 | the eight-byte big-endian value, below 256^8, and the span moves by eight |
| SpanReading.SpanReader.ReadSigned | src/LoveNes/IO/SpanReader.cs:48-87 | `ReadAsShort`, `ReadAsInt` and `ReadAsLong`: the unsigned reading taken as two's complement, within the signed range of the width |
| SpanReading.SpanReader.ReadAsByteArray | src/LoveNes/IO/SpanReader.cs:103-126 | the next `length` bytes, and the span moves past them; a negative or too long length throws and changes nothing |
| SpanReading.SpanReader.ReadRemaining | src/LoveNes/IO/SpanReader.cs:114-119 | everything left, after which the reader is consumed |
| SpanReading.SpanReader.ReadAsSubReader | src/LoveNes/IO/SpanReader.cs:15-20 | a fresh reader over exactly the next `length` bytes, and this reader moves past them |
| NesFiles.ReadBodyInSteps | src/LoveNes/IO/NesFile.cs:39-60 | reading the trainer, the PRG block and the CHR block one after the other, each on what the previous left, is the one-piece body read |
| NesFiles.LoadWellFormed | src/LoveNes/IO/NesFile.cs:35-80 | an image made of a valid header, a trainer exactly when Flags 6 asks for one, and PRG and CHR blocks of the header's sizes loads into exactly those parts and is used up |
| NesFiles.LoadedHeaderFacts | src/LoveNes/IO/NesFile.cs:62-80 | mirroring is bit 0 of Flags 6; the PRG RAM size is at least 8 KiB; the ROM sizes are whole 16 KiB and 8 KiB banks; a trainer is present exactly when the header says so |
| NesFiles.BadMagicRejected | src/LoveNes/IO/NesFile.cs:64-65 | a file not starting with `NES\x1A` throws InvalidData before anything else is read |
| NesFiles.TrainerMisread | src/LoveNes/IO/NesFile.cs:71 | as written, a well-formed image with vertical mirroring and no trainer has 512 bytes of PRG ROM taken as a trainer and fails on the last block; the iNES reading loads it |
| NesFiles.TrainerMisreadExample | src/LoveNes/IO/NesFile.cs:71 | a concrete 16 + 16384 + 8192-byte image that loads under the iNES rule and fails as written |
| NesFiles.NesFile.Empty | src/LoveNes/IO/NesFile.cs:12-26 | every property at its default before `Load` runs |
| NesFiles.NesFile.ReadHeaderFrom | src/LoveNes/IO/NesFile.cs:62-80 | the header, read with the iNES trainer bit (bit 2 of Flags 6), not bit 0 as NesFile.cs:71 reads; the properties become the header's fields and exactly 16 bytes are consumed; a wrong magic number or a short span throws |
| NesFiles.NesFile.ReadSizesFrom | src/LoveNes/IO/NesFile.cs:66-71 | PRG count x 16 KiB, CHR count x 8 KiB, mirroring from bit 0 of Flags 6 and the trainer flag from the iNES trainer bit (bit 2), not bit 0 as NesFile.cs:71 reads; a short span throws |
| NesFiles.NesFile.ReadFlagsFrom | src/LoveNes/IO/NesFile.cs:73-79 | Flags 7 to 10 and five padding bytes are consumed; the PRG RAM size is `max(1, Flags 8) x 8 KiB` |
| NesFiles.NesFile.ReadTrainerFrom | src/LoveNes/IO/NesFile.cs:56-60 | 512 bytes become the trainer only when the header says so; otherwise nothing is read |
| NesFiles.NesFile.ReadPrgRomFrom | src/LoveNes/IO/NesFile.cs:51-54 | the next `PrgRomSize` bytes become the PRG ROM |
| NesFiles.NesFile.ReadChrRomFrom | src/LoveNes/IO/NesFile.cs:46-49 | the next `ChrRomSize` bytes become the CHR ROM |
| NesFiles.NesFile.Load | src/LoveNes/IO/NesFile.cs:35-44 | the outcome and the loaded properties are those of the load function with the iNES trainer bit, and `consumed` is the condition of the final assertion |
| PictureUnit.WithV | src/LoveNes/PPU.cs:156-160 | the V setter sets bit 7 as asked and keeps the low seven bits |
| PictureUnit.AdvanceIndex | src/LoveNes/PPU.cs:61-68 | on a valid position one tick moves one dot forward in frame order, from the last dot of scanline 261 back to (0, 0), and stays valid |
| PictureUnit.AdvanceNIndex | src/LoveNes/PPU.cs:61-68 | n ticks move n dots forward modulo 341 x 262 and stay valid |
| PictureUnit.FrameSucc | src/LoveNes/PPU.cs:61-68 | counting modulo one frame commutes with the successor |
| PictureUnit.IndexInjective | src/LoveNes/PPU.cs:20-21 | a valid (scanline, dot) pair is determined by its index in the frame |
| PictureUnit.FramePeriod | src/LoveNes/PPU.cs:61-68 | after 262 x 341 ticks every valid position, (0, 0) among them, comes back to itself |
| PictureUnit.FullTurn | src/LoveNes/PPU.cs:61-68 | one whole frame added to an index in the frame gives the index back |
| PictureUnit.VBlankFlag | src/LoveNes/PPU.cs:44-85 | V is set at dot 1 of every scanline 241..260, cleared at dot 1 of scanline 261, and otherwise kept; no other status bit ever changes |
| PictureUnit.WriteOamData | src/LoveNes/PPU.cs:118-119 | a run of OAM data writes keeps the OAM 256 bytes long |
| PictureUnit.OamDataFill | src/LoveNes/PPU.cs:116-119 | up to 256 data writes fill consecutive OAM bytes from the OAM address on, wrapping at 256; they leave the other bytes and registers alone, and the address moves by the count |
| PictureUnit.OffsetStep | src/LoveNes/PPU.cs:119 | the 8-bit post-increment moves every slot's distance from the OAM address back by one, modulo 256 |
| PictureUnit.Ppu.constructor | src/LoveNes/PPU.cs:23-26 | all registers and counters zero; a fresh zeroed 256-byte OAM |
| PictureUnit.Ppu.OnPowerUp | src/LoveNes/PPU.cs:28-34 | status and both counters zero; the other registers kept |
| PictureUnit.Ppu.OnReset | src/LoveNes/PPU.cs:36-40 | both counters zero; the status is kept |
| PictureUnit.Ppu.OnTick | src/LoveNes/PPU.cs:42-69 | the status changes as the scanline handler says and the counters advance by one tick; validity is kept |
| PictureUnit.Ppu.StepCounters | src/LoveNes/PPU.cs:61-68 | the 16-bit `++_dot > 340` and `++_scanline > 261` updates are one step of the counter function |
| PictureUnit.Ppu.Read | src/LoveNes/PPU.cs:98-108 | offset 2 returns the status as it was before the read and then clears V; any other offset throws NotImplemented |
| PictureUnit.Ppu.Write | src/LoveNes/PPU.cs:110-122 | offset 0 sets the controller, 1 the mask and 3 the OAM address; offset 4 stores into the OAM at the OAM address and increments it mod 256; any other offset throws and changes nothing |
| CpuMicroCode.ImmediateAddress | src/LoveNes/CPU.MicroCode.cs:76-79 | the operand address is the PC itself, PC moves by one, and the arm dispatches |
| CpuMicroCode.RelativeTarget | src/LoveNes/CPU.MicroCode.cs:81-85 | the target is the PC after the offset byte plus that byte read as signed, modulo 65536; the arm dispatches |
| CpuMicroCode.AbsoluteAddress | src/LoveNes/CPU.MicroCode.cs:87-97 | three steps form the little-endian address from the two bytes at PC, move PC by two and dispatch on the third |
| CpuMicroCode.TwoBytes | src/LoveNes/CPU.MicroCode.cs:88-93 | the low-then-high operand reads give the little-endian word at PC and move PC by two |
| CpuMicroCode.ZeroPageAddress | src/LoveNes/CPU.MicroCode.cs:99-105 | two steps take the byte at PC as an address in page 0 and dispatch |
| CpuMicroCode.ZeroPageXAddress | src/LoveNes/CPU.MicroCode.cs:107-116 | three steps give `(operand + X) mod 256`, so the address never leaves page 0 |
| CpuMicroCode.ZeroPageXChain | src/LoveNes/CPU.MicroCode.cs:107-116 | the three zero page,X steps load, index on page 0 and dispatch, in that order |
| CpuMicroCode.ZeroPageXOperand | src/LoveNes/CPU.MicroCode.cs:108-112 | loading the operand and indexing it by X gives the page-0 address and moves PC by one |
| CpuMicroCode.AbsoluteIndexChain | src/LoveNes/CPU.MicroCode.cs:118-142 | absolute,X and absolute,Y as written both continue into the AbsoluteX_2 and AbsoluteX_3 arms and add X |
| CpuMicroCode.IndexOperand | src/LoveNes/CPU.MicroCode.cs:127 | `MemoryAddress += index` adds the index modulo 65536 and changes nothing else |
| CpuMicroCode.IndexedBase | src/LoveNes/CPU.MicroCode.cs:119-127 | the two operand bytes indexed by X give `(base + X) mod 65536` with PC moved by two |
| CpuMicroCode.AbsoluteXAddress | src/LoveNes/CPU.MicroCode.cs:118-129 | absolute,X dispatches on the third step with `(base + X) mod 65536` |
| CpuMicroCode.AbsoluteYAddsX | src/LoveNes/CPU.MicroCode.cs:131-142 | absolute,Y as written adds X, not Y, because its first arm hands over to AbsoluteX_2 |
| CpuMicroCode.IndirectYAddress | src/LoveNes/CPU.MicroCode.cs:144-159 | four steps read the pointer at PC, the base from the pointer and the next page-0 byte, add Y modulo 65536 and dispatch |
| CpuMicroCode.IndirectYTail | src/LoveNes/CPU.MicroCode.cs:152-159 | the last two (indirect),Y steps read the high byte and then add Y and dispatch |
| CpuMicroCode.HighKeepsRegisters | src/LoveNes/CPU.MicroCode.cs:152-155 | reading the high byte of the base changes no register |
| CpuMicroCode.IndirectYSteps | src/LoveNes/CPU.MicroCode.cs:152-159 | the IndirectY_3 arm reads the high byte and the IndirectY_4 arm adds Y and dispatches |
| CpuMicroCode.IndirectBytes | src/LoveNes/CPU.MicroCode.cs:145-157 | the pointer wraps within page 0 for the high byte and the result is the base plus Y |
| CpuMicroCode.PushPop | src/LoveNes/CPU.MicroCode.cs:235-242 | push stores ResultA at `0x100 + S` and decrements S mod 256; a pop right after returns that byte and restores every register; both addresses lie in page 1 |
| CpuMicroCode.FlagOps | src/LoveNes/CPU.MicroCode.cs:243-251 | SEI sets I, CLC clears C, CLD clears D, each without changing another flag or any other part of the machine |
| CpuMicroCode.MicroCodeWithoutArm | src/LoveNes/CPU.MicroCode.cs:65-254 | exactly None, the zero page,Y and (indirect,X) tags and ADC throw InvalidProgramException; every other tag steps |
| CpuOpCode.OpCodeRoundTrip | src/LoveNes/CPU.OpCode.cs:9-157 | every declared opcode's byte casts back to that opcode |
| CpuOpCode.ByteRoundTrip | src/LoveNes/CPU.OpCode.cs:9-157 | a byte that names a declared opcode is that opcode's value |
| CpuOpCode.DecodeDomain | src/LoveNes/CPU.OpCode.cs:159-222 | a byte decodes exactly when it is a declared opcode other than ADC immediate, and every other byte throws InvalidProgramException |
| CpuOpCode.DecodeOpInjective | src/LoveNes/CPU.OpCode.cs:159-222 | two different opcodes that decode start different opcode statuses |
| CpuOpCode.DecodeInjective | src/LoveNes/CPU.OpCode.cs:159-222 | two different bytes that decode start different instructions |
| CpuOpCode.DecodedHasArm | src/LoveNes/CPU.OpCode.cs:159-222 | every status the decoder starts has an arm in the opcode-status step |
| CpuOpCode.DecodeExamples | src/LoveNes/CPU.OpCode.cs:179-220 | 0xF0, 0xE6, 0x20 and 0x60 start BEQ, INC zero page, JSR and RTS; 0x69 and 0xFF throw |
| CpuOpCode.TickWhileBusy | src/LoveNes/CPU.OpCode.cs:228 | a tick while another master holds the bus changes nothing |
| CpuOpCode.TickFetches | src/LoveNes/CPU.OpCode.cs:232-239 | with nothing pending a tick reads the byte at PC, moves PC by one and marks an opcode as being read, and does nothing else |
| CpuOpCode.TickDecodes | src/LoveNes/CPU.OpCode.cs:240-253 | on the next tick the byte is decoded and its first status and micro-code run in the same tick; an undecodable byte throws |
| CpuOpCode.TickContinues | src/LoveNes/CPU.OpCode.cs:230-253 | with a status pending and no micro-code, a tick runs the status step and then its micro-code |
| CpuOpCode.TickRunsMicroFirst | src/LoveNes/CPU.OpCode.cs:230-253 | a pending micro-code runs alone and the pending status is carried over |
| CpuOpCodeStatus.UnlistedTagsThrow | src/LoveNes/CPU.OpCodeStatus.cs:141-455 | a status throws InvalidProgramException exactly when it has no arm, and those are None, the seven ADC addressing tags and ADC_2 |
| CpuOpCodeStatus.ArmedTagsStep | src/LoveNes/CPU.OpCodeStatus.cs:145-451 | a status with an arm never reaches the InvalidProgramException default |
| CpuOpCodeStatus.UnarmedTagsThrow | src/LoveNes/CPU.OpCodeStatus.cs:453-454 | a status without an arm falls through to the exception |
| CpuOpCodeStatus.UnarmedTags | src/LoveNes/CPU.OpCodeStatus.cs:141-455 | the statuses without an arm are exactly None, the ADC addressing tags and ADC_2 |
| CpuOpCodeStatus.InterruptWithoutType | src/LoveNes/CPU.OpCodeStatus.cs:154-155 | Interrupt_4 with no interrupt pending fails on `_interruptType.Value` |
| CpuOpCodeStatus.BranchConditions | src/LoveNes/CPU.OpCodeStatus.cs:305-358 | BPL on N clear, BMI on N set, BNE on Z clear, BEQ on Z set, BCC on C clear: a taken branch goes on to Relative_Jump and changes nothing, one not taken skips the offset and ends the instruction |
| CpuOpCodeStatus.RelativeJumpDescriptor | src/LoveNes/CPU.OpCodeStatus.cs:171-173 | Relative_Jump reads through relative addressing into PC with no flag effect |
| CpuOpCodeStatus.AffectFlagsPerInstruction | src/LoveNes/CPU.OpCodeStatus.cs:182-289 | stores and TXS install no operation and no flag effect; loads, transfers into A, X or Y, and INX/INY/DEX/DEY set the flags |
| CpuOpCodeStatus.StoresKeepFlags | src/LoveNes/CPU.OpCodeStatus.cs:189-200 | the STA arms install no operation and no flag effect |
| CpuOpCodeStatus.OtherStoresKeepFlags | src/LoveNes/CPU.OpCodeStatus.cs:182-207 | the STX, STY and TXS arms install no operation and no flag effect |
| CpuOpCodeStatus.LoadsSetFlags | src/LoveNes/CPU.OpCodeStatus.cs:269-289 | every LDA arm sets the flags |
| CpuOpCodeStatus.IndexLoadsSetFlags | src/LoveNes/CPU.OpCodeStatus.cs:209-221 | the LDX and LDY arms set the flags |
| CpuOpCodeStatus.TransfersSetFlags | src/LoveNes/CPU.OpCodeStatus.cs:223-234 | TAX, TAY, TXA and TYA set the flags |
| CpuOpCodeStatus.StepsSetFlags | src/LoveNes/CPU.OpCodeStatus.cs:255-267 | INX, INY, DEX and DEY set the flags |
| CpuOpCodeStatus.ReadModifyWriteFirstPass | src/LoveNes/CPU.OpCodeStatus.cs:239-253 | the first pass of INC, DEC, ROL and ASL on page 0 reads through zero-page addressing with no destination and no flags, and continues with that instruction's own second pass |
| CpuOpCodeStatus.ReadModifyWriteSecondPass | src/LoveNes/CPU.OpCodeStatus.cs:242-253 | the second pass steps PC back by one and writes the instruction's operation of the operand back to memory with flags |
| CpuOpCodeStatus.SecondPassArm | src/LoveNes/CPU.OpCodeStatus.cs:433-447 | each second pass installs Memory as destination, its own operation and the flags, and rewinds PC |
| CpuOpCodeStatus.SetArmStep | src/LoveNes/CPU.OpCodeStatus.cs:182-451 | a descriptor-only arm steps exactly by its table entry |
| CpuOpCodeStatus.JsrPasses | src/LoveNes/CPU.OpCodeStatus.cs:291-299 | JSR prepares the high and then the low byte of PC+1 (mod 65536) for the pushes, then jumps through absolute addressing into PC |
| CpuOpCodeStatus.SetArmFrame | src/LoveNes/CPU.OpCodeStatus.cs:182-451 | a descriptor-only arm changes only the descriptor, apart from the one-step PC rewind of the second passes |
| CpuOpCodeStatus.ApplySetArmFrame | src/LoveNes/CPU.OpCodeStatus.cs:182-451 | installing a descriptor changes the descriptor and, when it rewinds, PC by minus one, and nothing else |
| CpuState.Dispatched | src/LoveNes/CPU.MicroCode.cs:72-74 | the dispatch hands back registers, flags, address state and memory, and leaves the tags, the interrupt latch and the bus ownership alone |
| CpuEngine.Cpu.DispatchAddressing | src/LoveNes/CPU.MicroCode.cs:73 | the fields become the dispatched machine |
| CpuEngine.Cpu.ExecuteMicroCode | src/LoveNes/CPU.MicroCode.cs:65-254 | the fields change as the micro-code step says, with the dispatch applied when the arm calls it; an arm-less tag throws |
| CpuEngine.Cpu.ExecuteOpCodeStatus | src/LoveNes/CPU.OpCodeStatus.cs:141-456 | the fields change as the status step says and the two returned tags are stored; an arm-less tag or a missing interrupt throws |
| CpuEngine.Cpu.ExecuteOpCode | src/LoveNes/CPU.OpCode.cs:226-254 | one tick changes the fields exactly as the tick function says, and a thrown exception is reported |
| CpuSequences.DispatchTick | src/LoveNes/CPU.OpCode.cs:250-253 | a status step naming Addressing dispatches in the same tick |
| CpuSequences.StackedState | src/LoveNes/CPU.OpCodeStatus.cs:145-153 | the three interrupt pushes store PC high, PC low and the status byte at descending stack addresses, drop S by three and change nothing else |
| CpuSequences.StackedKeepsVectors | src/LoveNes/CPU.OpCodeStatus.cs:145-161 | the pushes stay in page 1, so the vector bytes read next are those that were there before |
| CpuSequences.StackedAbove | src/LoveNes/CPU.OpCodeStatus.cs:145-153 | the pushes leave every byte from 0x200 up alone |
| CpuSequences.VectorBytes | src/LoveNes/CPU.cs:937-940 | both bytes of each vector lie in 0xFFFA..0xFFFF, so the `MemoryAddress++` between them does not wrap |
| CpuSequences.InterruptEntry | src/LoveNes/CPU.OpCodeStatus.cs:164-169 | Interrupt_6 enters the handler in one tick through the Addressing dispatch |
| CpuSequences.InterruptTicks | src/LoveNes/CPU.OpCodeStatus.cs:145-169 | the interrupt acknowledge takes six ticks from Interrupt_1: three pushes, two vector reads and the entry |
| CpuSequences.AcknowledgedState | src/LoveNes/CPU.OpCodeStatus.cs:145-169 | after the acknowledge, PC and the status byte are on the stack, S is down by three, the vector is handed to PC, I is set and no interrupt is pending |
| CpuSequences.AcknowledgedStack | src/LoveNes/CPU.OpCodeStatus.cs:145-153 | the three bytes the acknowledge leaves on the stack and S after it |
| CpuSequences.FetchDecode | src/LoveNes/CPU.OpCode.cs:232-250 | an instruction starts with a fetch tick, and the next tick acts as a tick with the decoded status pending |
| CpuSequences.AbsoluteTicks | src/LoveNes/CPU.MicroCode.cs:87-97 | a descriptor arm naming Absolute_1 takes three ticks: the status step with the low byte, the high byte, the dispatch |
| CpuSequences.JsrTicks | src/LoveNes/CPU.OpCodeStatus.cs:291-299 | JSR takes six ticks from the fetch: two pushes and three ticks of absolute addressing |
| CpuSequences.JsrCallState | src/LoveNes/CPU.OpCodeStatus.cs:291-299 | JSR at `a` pushes the high and then the low byte of `a + 2`, drops S by two, moves PC past the instruction and hands the operand word to PC |
| CpuSequences.RtsTicks | src/LoveNes/CPU.OpCodeStatus.cs:414-427 | RTS takes six ticks from the fetch |
| CpuSequences.RtsReturnState | src/LoveNes/CPU.OpCodeStatus.cs:414-427 | RTS pops the low and then the high byte, raises S by two, leaves memory alone and hands the popped address plus one to PC |
| CpuSequences.StackPairRoundTrip | src/LoveNes/CPU.MicroCode.cs:235-242 | two bytes pushed at S and S - 1 and popped from S - 2 give the pushed word back, and S returns to where it was |
| CpuSequences.JsrRtsRoundTrip | src/LoveNes/CPU.OpCodeStatus.cs:291-427 | an RTS that finds the stack as JSR at `a` left it returns to `a + 3` with S restored |
| CpuSequences.RtiTicks | src/LoveNes/CPU.OpCodeStatus.cs:395-408 | RTI takes five ticks from RTI_1: three pops, the address assembly and the dispatch |
| CpuSequences.RtiReturnState | src/LoveNes/CPU.OpCodeStatus.cs:395-408 | RTI pops the status byte, then PC low, then PC high; S rises by three, memory is untouched, and the word is handed to PC |
| CpuSequences.StackTripleRoundTrip | src/LoveNes/CPU.MicroCode.cs:235-242 | three bytes pushed at S, S - 1, S - 2 and popped from S - 3 give the status byte and then the word back |
| CpuSequences.InterruptRtiRoundTrip | src/LoveNes/CPU.OpCodeStatus.cs:145-408 | an RTI that finds the stack as the acknowledge left it restores the status, returns to the interrupted PC and puts S back |
| Processor.StatusValueRoundTrip | src/LoveNes/CPU.cs:1054-1058 | the `Value` getter and setter are inverse in both directions |
| Processor.WithFlagFrame | src/LoveNes/CPU.cs:1063-1121 | setting a boolean flag makes it read back as set and leaves every other bit alone |
| Processor.WithBFrame | src/LoveNes/CPU.cs:1099-1103 | setting B stores its low two bits in bits 4-5 and leaves the other six bits alone |
| Processor.StatusLayout | src/LoveNes/CPU.cs:1047-1121 | the status byte is C, Z, I, D, B (two bits), V, N from bit 0 up |
| Processor.StackAddress | src/LoveNes/CPU.MicroCode.cs:235-242 | every stack access `0x100 + S` lies in page 1 |
| LegacyCpu.DecodeDomain | src/LoveNes/CPU.cs:73-133 | exactly the 27 listed bytes decode, every other byte (ADC 0x69 among them) throws InvalidProgramException, and no two bytes start the same instruction |
| LegacyCpu.UpdateNZFacts | src/LoveNes/CPU.cs:931-935 | N is bit 7 of the result, Z is whether it is zero, and the other six status bits are kept |
| LegacyCpu.LoadAndIncFlags | src/LoveNes/CPU.cs:877-883 | None passes the operand through and Inc adds one modulo 256, each setting N and Z from the byte returned |
| LegacyCpu.CompareFlags | src/LoveNes/CPU.cs:893-910 | compare sets C for register >= operand and Z for equality; N is set for register < operand, the complement of C; the operand comes back unchanged |
| LegacyCpu.BitTestFlags | src/LoveNes/CPU.cs:884-892 | BIT sets Z when A and the operand share no bit and copies bits 7 and 6 of the operand into N and V |
| LegacyCpu.AndFlags | src/LoveNes/CPU.cs:911-919 | AND returns operand & A, which is at most either; N is its bit 7, but Z tells whether the old A was zero rather than the result |
| LegacyCpu.DispatchMemoryFacts | src/LoveNes/CPU.cs:814-871 | the dispatch succeeds exactly for read into None/X/Y/A, write from X/Y/A and jump to PC, and otherwise throws ArgumentException; a read keeps memory and puts the result in the register, a write changes only the addressed byte, a jump changes only PC |
| LegacyCpu.ReadWordLittleEndian | src/LoveNes/CPU.cs:949-956 | `ReadUShort` reads the low byte at the address and the high byte at the next one, wrapping at 0xFFFF, and changes no memory |
| LegacyCpu.WriteRunFacts | src/LoveNes/CPU.cs:981-982 | a run of writes stores the latched value in the run and nowhere else |
| LegacyCpu.SilenceMemory | src/LoveNes/CPU.cs:976-982 | the power-up writes zero exactly 0x4017, 0x4015 and 0x4000..0x400F |
| LegacyCpu.PowerUpState | src/LoveNes/CPU.cs:963-987 | after power-up the tags are clear, the status is 0x34 (I set), A = X = Y = 0, S = 0xFD, only the APU registers were zeroed, and PC is the little-endian reset vector |
| LegacyCpu.PowerUpFlags | src/LoveNes/CPU.cs:969 | 0x34 already has I set, so the reset interrupt leaves the status at 0x34 |
| LegacyCpu.ResetState | src/LoveNes/CPU.cs:989-999 | reset moves S down by three mod 256, sets I and keeps every other flag, A, X, Y and memory, and loads PC from the reset vector |
| LegacyCpu.StatusStepDomain | src/LoveNes/CPU.cs:346-506 | a status step throws, with InvalidProgramException, exactly for None, the ADC addressing tags and ADC_2 |
| LegacyCpu.UnlistedTagsThrow | src/LoveNes/CPU.cs:569-771 | a micro-code without an arm throws InvalidProgramException, and one with an arm can throw only from its dispatch, with ArgumentException |
| LegacyCpu.MicroDispatchErrors | src/LoveNes/CPU.cs:576-632 | a failing arm that has one fails with the dispatch's ArgumentException |
| LegacyCpuAddressing.ZeroPageXTicks | src/LoveNes/CPU.cs:608-614 | the first two zero page,X ticks fetch the operand and index it |
| LegacyCpuAddressing.ZeroPageXAddress | src/LoveNes/CPU.cs:608-618 | the third tick accesses `(operand + X) mod 256`, on page 0, with PC past the operand and the descriptor untouched |
| LegacyCpuAddressing.AbsoluteXTicks | src/LoveNes/CPU.cs:619-629 | the first three absolute,X ticks fetch both bytes and index the address |
| LegacyCpuAddressing.AbsoluteXAddress | src/LoveNes/CPU.cs:619-633 | the fourth tick accesses the little-endian base plus X modulo 65536, carrying into the high byte, with PC past both bytes |
| LegacyCpuAddressing.AbsoluteXFields | src/LoveNes/CPU.cs:619-629 | after three ticks the indexed address is formed, PC has moved by two and memory, flags and descriptor are untouched |
| LegacyCpuAddressing.FetchedFacts | src/LoveNes/CPU.cs:54 | an operand fetch moves PC by one and latches the byte at the old PC, and changes nothing else |
| LegacyCpuAddressing.AbsoluteXDispatch | src/LoveNes/CPU.cs:630-633 | the fourth tick dispatches at the indexed address |
| LegacyCpuAddressing.BranchDecodeTick | src/LoveNes/CPU.cs:452-472 | on decoding BPL or BNE the branch either skips its offset or leaves Relative_Jump pending, by N or Z |
| LegacyCpuAddressing.BranchJumpTick | src/LoveNes/CPU.cs:350-354 | the pending Relative_Jump runs the relative jump in one tick |
| LegacyCpuAddressing.BranchSkipTicks | src/LoveNes/CPU.cs:452-472 | a branch not taken takes two ticks |
| LegacyCpuAddressing.BranchTakeTicks | src/LoveNes/CPU.cs:452-472 | a branch taken takes three ticks |
| LegacyCpuAddressing.BranchTargets | src/LoveNes/CPU.cs:584-588 | a branch at `p` leaves PC at `p + 2`, or `p + 2 + offset` with the offset signed, both mod 65536; registers, flags and memory are otherwise kept and the engine is idle |
| LegacyCpuSequences.JsrRun | src/LoveNes/CPU.cs:436-446 | JSR takes six ticks |
| LegacyCpuSequences.JsrEffect | src/LoveNes/CPU.cs:436-446 | JSR pushes the high and then the low byte of the address of its last byte, moves S down two and jumps to the operand word read after the pushes |
| LegacyCpuSequences.RtsRun | src/LoveNes/CPU.cs:489-502 | RTS takes six ticks |
| LegacyCpuSequences.RtsEffect | src/LoveNes/CPU.cs:489-502 | RTS pops the low and then the high byte, moves S up two, sets PC to that word plus one and leaves memory alone |
| LegacyCpuSequences.StackPair | src/LoveNes/CPU.cs:743-750 | two bytes pushed at S and S - 1 and popped from S - 2 spell the pushed word, and S returns to where it was |
| LegacyCpuSequences.JsrRtsRoundTrip | src/LoveNes/CPU.cs:436-502 | an RTS that finds the bytes a JSR at `p` pushed returns to `p + 3` with S restored |
| LegacyCpuSequences.CallReturnTicks | src/LoveNes/CPU.cs:436-502 | a JSR to a subroutine that starts with RTS takes twelve ticks |
| LegacyCpuSequences.CallReturnEffect | src/LoveNes/CPU.cs:436-502 | such a call changes no register but PC, which ends three bytes past the JSR, and no flag |
| LegacyCpuEngine.Cpu.constructor | src/LoveNes/CPU.cs:40-43 | every field other than the bus starts at its default value |
| LegacyCpuEngine.Cpu.UpdateNZ | src/LoveNes/CPU.cs:931-935 | the status becomes the N/Z update of the result |
| LegacyCpuEngine.Cpu.DoOperation | src/LoveNes/CPU.cs:873-923 | the flags and the returned byte are those of the ALU function for the current operation |
| LegacyCpuEngine.Cpu.DispatchRegisterAddressing | src/LoveNes/CPU.cs:799-812 | the operation is applied to X or A; any other destination throws before anything changes |
| LegacyCpuEngine.Cpu.DispatchMemoryAddressing | src/LoveNes/CPU.cs:814-871 | the fields become the memory dispatch's result, or an ArgumentException is reported |
| LegacyCpuEngine.Cpu.ReadUShort | src/LoveNes/CPU.cs:949-956 | the bus and the word are those of the little-endian word read |
| LegacyCpuEngine.Cpu.Interrupt | src/LoveNes/CPU.cs:942-947 | I is set and PC is loaded from the type's vector |
| LegacyCpuEngine.Cpu.ExecuteOpCodeStatus | src/LoveNes/CPU.cs:346-506 | the fields change as the status step says and it returns the two tags; an arm-less status throws before anything changes |
| LegacyCpuEngine.Cpu.ExecuteDescriptorStatus | src/LoveNes/CPU.cs:350-488 | the descriptor arms and the arm-less default, as the status step says |
| LegacyCpuEngine.Cpu.ExecuteSequenceStatus | src/LoveNes/CPU.cs:436-502 | the JSR, RTS and branch arms, as the status step says |
| LegacyCpuEngine.Cpu.ExecuteMicroCode | src/LoveNes/CPU.cs:569-771 | the fields change as the micro-code step says; an arm-less micro-code throws |
| LegacyCpuEngine.Cpu.ExecuteOneTickMicroCode | src/LoveNes/CPU.cs:580-588 | the immediate and relative arms, as the micro-code step says |
| LegacyCpuEngine.Cpu.ExecuteDispatchingMicroCode | src/LoveNes/CPU.cs:576-633 | the arms that dispatch at the address they formed, as the micro-code step says |
| LegacyCpuEngine.Cpu.ExecuteOperandMicroCode | src/LoveNes/CPU.cs:589-629 | the arms that fetch an operand byte or index the address, as the micro-code step says |
| LegacyCpuEngine.Cpu.Dispatch | src/LoveNes/CPU.cs:596-598 | a dispatch followed by the end of the micro-code sequence |
| LegacyCpuEngine.Cpu.ExecuteImpliedMicroCode | src/LoveNes/CPU.cs:573-771 | the stack, flag and transfer arms and the throwing default, as the micro-code step says |
| LegacyCpuEngine.Cpu.ExecuteOpCode | src/LoveNes/CPU.cs:45-71 | one tick changes the fields exactly as the tick function says, and a thrown exception is reported |
| LegacyCpuEngine.Cpu.OnTick | src/LoveNes/CPU.cs:958-961 | a clock tick is one `ExecuteOpCode` |
| LegacyCpuEngine.Cpu.OnPowerUp | src/LoveNes/CPU.cs:963-987 | the fields become the power-up function of the old ones |
| LegacyCpuEngine.Cpu.PowerUpRegisters | src/LoveNes/CPU.cs:965-974 | the tags, the status and A, X, Y, S take their power-up values |
| LegacyCpuEngine.Cpu.SilenceChannels | src/LoveNes/CPU.cs:976-982 | the bus becomes the silenced bus, with the loop of writes over 0x4000..0x400F |
| LegacyCpuEngine.Cpu.OnReset | src/LoveNes/CPU.cs:989-999 | the fields become the reset function of the old ones |

## Left out

- The desktop front end (`LoveNes.Cli`) and the host graphics interface (`Host/IHostGraphics.cs`): they are UI code outside the emulation core.
- `APU.cs`: its only member is a one-byte frame-controller face that throws on reads and only logs writes to offset 0, and `NesSystem` does not wire it.
- The pacing in `Clock.PowerUp` (Clock.cs:55-66): the `Stopwatch`, `Thread.Sleep` and the endless loop are wall-clock timing. The model keeps the power-up hooks and takes the number of pending updates as a parameter (`Clocks.Clock.CatchUp`).
- `Clocks.Clock`: `_actualAge` is an unbounded integer, not a 64-bit `long`. No run can reach the overflow.
- Clock sinks are identifiers, and their hooks are recorded as a log of calls (`calls`). What a sink does in its hook is modelled by that sink's own module.
- `NesFile.FromStream` (IO/NesFile.cs:82-87): asynchronous stream I/O. The model starts from the byte content the stream would yield.
- `SpanReader.ReadAsFloat` and `ReadAsDouble`: floating point.
- `SpanReader.ReadAsBoolean`: the way `ReadBigEndian<bool>` maps its byte is not part of this model.
- `SpanReader.ReadAsSpan`: it is the same read as `ReadAsByteArray` once bytes are values, so `SpanReading.SpanReader.ReadAsByteArray` models both.
- `ReadBigEndian<T>` is not part of this model. It is taken to read `sizeof(T)` bytes as a big-endian unsigned number, and signed types as two's complement.
- `BitVector8` is not part of this model. It is taken to be a byte whose flags are selected by a one-bit mask.
- The `MirroringMode` enum is not part of this model. Its members are taken to be Horizontal = 0 and Vertical = 1.
- `NesFile`'s trainer, PRG ROM and CHR ROM arrays, and the reader's span, are value sequences: the model does not capture aliasing of those arrays.
- `Cartridges.Cartridge.InsertNesFile`: the source hands the `NesFile` itself to `Mapper0`, whose constructor takes a `byte[]` (Cartridge.cs:25, Mappers/Mapper0.cs:11). No conversion between the two is shown. The model passes the ROM array the mapper serves.
- The CPU and the OAM DMA unit, as bus masters, see the bus contents as one memory (`MasterBus.FlatBus`). Their reads and writes do not go through the device dispatch of `AddressBus.Bus`, which is modelled on its own.
- `AddressBus.Bus.Read` and `Write` resolve the address to a device and an offset. The device's own access is a parameter (`peek`) or is returned to the caller as a `Store`.
- The private `DummySlave` of Bus.cs: it is declared but never used.
- `DispatchAddressing`, `_addressState`, `AddressOperand` and `InterruptType` of the newer engine are used by the files but not defined in them. `DispatchAddressing` is a parameter of that engine (`CpuState.Dispatch`), and only its frame is constrained.
- `CpuEngine.Cpu`: each arm's field updates are applied together by `Apply` from the pure step, not assignment by assignment.
- `CpuEngine.Cpu.ExecuteOpCode`: when an arm throws, the state the fields are left in is not specified. The source may have changed some fields before the throw. The error itself is specified.
- `LegacyCpuEngine.Cpu.ExecuteOpCode`: on a thrown error the state is likewise not specified, for the same reason. Its status step leaves the state untouched on error, and that is stated.
- `UpdateCV` (CPU.cs:925) is never called, and the commented-out ADC micro-op (around CPU.cs:633-742 and CPU.MicroCode.cs:160-234) is not code. Neither is modelled.
- The `Console.WriteLine` tracing of each fetched opcode (CPU.cs:62, CPU.OpCode.cs:245): output only.
- Interrupt polling at instruction boundaries: the files have none. In the older engine an interrupt is entered only through `Interrupt`, which power-up and reset call. In the newer engine the pending `_interruptType` is a field of the state.
- `PictureUnit.Ppu`: register offsets the source does not handle give `NotImplemented`, as the source throws. `DoVisibleScanline` (PPU.cs:91-96) has an empty body. There is no pixel output and no NMI or frame callback, because the source has none.
- The `O` and `S` accessors of `PPUStatus` are unused by the source. Only the masks are kept.
- `NesSystems.NesSystem`: NesSystem.cs:26 calls `new Clock()`, but the constructor at Clock.cs:21 takes a frequency. The model passes the frequency in as a parameter of the system's constructor. The cartridge's CPU face is registered at 0x4020 with size 0xBFE0, as its `MemoryMapSize` says.
- AddressBus.Bus.AddSlave / AddressBus.FindClash / AddressBus.Bus.AddToList: they test overlap on the windows' real extent `[base, base + size)`, the corrected reading of Bus.cs:75 and 81 (see Findings). The source's truncated test is `AddressBus.AddToAsWritten`. The two agree while no window reaches 0x10000 (`AddressBus.AsWrittenAgreesBelowTop`) and differ on the window inside the cartridge face (`AddressBus.AsWrittenAcceptsInner`).
- NesFiles.NesFile.ReadSizesFrom: sets `HasTrainer` from bit 2 of Flags 6, the iNES trainer bit, where NesFile.cs:71 reads bit 0 (see Findings). The reading as written is `NesFiles.LoadImageAsWritten`.
- NesFiles.NesFile.ReadHeaderFrom: likewise reads the trainer flag from bit 2, not bit 0, through `ReadSizesFrom`.
- LegacyCpu.PowerUp / LegacyCpu.PowerUpState / LegacyCpuEngine.Cpu.OnPowerUp / LegacyCpuEngine.Cpu.SilenceChannels: the power-up is proved on the flat memory, where every write succeeds. In the console as wired, no window covers 0x2000..0x401F (`NesSystems.PowerUpWritesUnmapped`), so the first power-up write, to 0x4017, throws AccessViolation on the system bus. The CPU is the first 1x clock sink, so the wired system's power-up stops there and never reads the reset vector. The model does not capture that crash.

## Findings

| source | as written | input that shows it | evidently intended | confidence | as-written member | corrected member |
|---|---|---|---|---|---|---|
| src/LoveNes/Bus.cs:75 | a window's range ends at `(ushort)(base + size)`, so a window reaching 0x10000 ends at 0 and is checked for overlap as if it were empty at its start | the cartridge face at 0x4020 with size 0xBFE0, then a window at 0x5000 with size 0x10: both cover 0x5000, yet the registration as written adds the second window | a window overlapping any address of an existing window `[base, base + size)` is rejected | not executed | AddressBus.AsWrittenAcceptsInner | AddressBus.AddSlaveOutcome |
| src/LoveNes/IO/NesFile.cs:71 | `HasTrainer` is bit 0 of Flags 6, the same bit as the mirroring mode | the header 4E 45 53 1A 01 01 01 00 … with 16 KiB of PRG ROM and 8 KiB of CHR ROM and no trainer: it is read as having a trainer, and the load fails with `ArgumentOutOfRange` | the iNES trainer flag is bit 2 of Flags 6 (0b100) | not executed | NesFiles.TrainerMisreadExample | NesFiles.LoadWellFormed |
