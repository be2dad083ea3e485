# Cartridge save dump for the Zeal 8-bit Computer: a Dafny model

This project models the two halves of the Gameboy cartridge save dumper.

The device side is `software/src/main.c`. It maps a cartridge into a
16 KB virtual window and reads the cartridge header. From the type byte
and the RAM-size code it decides how many save-RAM banks there are and
how big each one is. It then enables the cartridge RAM, selects every
bank in turn and writes it to the UART. At the end it closes the UART and
disables the RAM again.

The host side is `dump.py`. It sends `'!'` and checks a 4-byte reply
(`'='`, bank count, 16-bit little-endian bank size). It then reads
`bank_num * bank_size` bytes and stores them.

The model has these modules:

- `Geometry` (geometry.dfy): the type and RAM-size table, as pure functions.
- `DumpSpec` (dump_spec.dfy): the reference semantics of `main`.
  - `RunTrace(env)` is the log of events a run produces.
  - The environment `env` answers every foreign call: the result of
    `open`, whether the k-th `map` succeeds, whether the UART write for a
    bank succeeds, and the bytes the window shows.
- `Cartridge` (cartridge.dfy): the imperative program.
  - Class `Dumper` has the globals (`uart_dev`), the mapped region, the
    last value of each cartridge register, the number of map calls and
    the effect log as fields.
  - Its invariant ties the mapped region and the registers to the log:
    they are always the state `DumpSpec.Replay` gives for the log.
  - `map_cart_phys`, `map_cart_sram` and every step of `main` are methods.
  - `Run` is proved to produce exactly `RunTrace(env)`.
- `DumpProps` and `RunProps` (dump_props.dfy, run_props.dfy): what every
  run's log guarantees, for every environment. The log is read through
  these views:
  - the window discipline (`Safe`: a write goes only through a mapped
    region, UART data is only read with the save RAM mapped, enabled
    and a bank selected);
  - how a run ends (`Completed`, `Halted`);
  - how often the UART is closed (`CloseCount`);
  - what the UART receives (`Chunks`).
- `Host` (host.dfy): the host script, as pure functions.
  - The header check and decoding.
  - The run of the script as a sequence of host events.

The source has gaps; the model keeps them as written and proves them:

- An unsupported cartridge type exits without closing the UART
  (`RunProps.UnsupportedLeavesUartOpen`).
- The results of the UART writes are ignored: a failed write neither
  stops the loop nor changes how the run ends
  (`RunProps.WriteResultsIgnored`, `DumpProps.TransferChunks`).
- The single-bank type 0x06 still goes through `map_cart_sram` and
  writes its bank register (`RunProps.SingleBankStillSelects`).
- When the remap of region 0 after the loop fails and `uart_dev` is
  non-zero, the UART is closed twice: once after the loop and once on
  the error path of `map_cart_phys`.
  - `RunProps.ClosesTwiceIff` characterises these runs exactly.
  - `RunProps.DoubleCloseWitness` exhibits one.

## Model

| member | source | states |
|---|---|---|
| Geometry.IsMultiBank | software/src/main.c:98-102 | the five `case` labels of the multi-bank group (0x03, 0x10, 0x13, 0x1B, 0x1E); `Resolve` states what they resolve to |
| Geometry.IsSupported | software/src/main.c:97-134 | the types that do not reach the `default` exit: the multi-bank group and 0x06; `Resolve` is `Some` exactly for them |
| Geometry.RamSizeKB | software/src/main.c:106-122 | the RAM size is non-zero exactly for codes 2..5, a multiple of 8 KB and at most 128 KB |
| Geometry.RamSizeTable | software/src/main.c:107-122 | codes 2, 3, 4, 5 give 8, 32, 128, 64 KB; every other code gives 0 |
| Geometry.BankCount | software/src/main.c:123 | `size >> 3` banks: exactly `RamSizeKB / 8`, at most 16, covering the RAM size in 8 KB banks |
| Geometry.BankCountTable | software/src/main.c:107-123 | codes 2, 3, 4, 5 give 1, 4, 16, 8 banks; every other code gives 0 |
| Geometry.Resolve | software/src/main.c:97-134 | a geometry exists exactly for the five multi-bank types and 0x06; the bank size is 512 exactly for 0x06 (one bank) and 8 KB otherwise; the banks cover the RAM size; at most 16 banks, and the bank size fits the window and a `uint16_t` |
| Geometry.RamCodeIgnoredOutsideMultiBank | software/src/main.c:98-130 | the RAM-size code changes the geometry only for the multi-bank types |
| DumpSpec.Abort | software/src/main.c:48-54 | the error path of `map_cart_phys`: `close` only when `uart_dev` is non-zero, then `exit()`; its effects are stated by `DumpProps.AbortPiece` |
| DumpSpec.MapEvents | software/src/main.c:45-55 | `map_cart_phys` as the k-th map call: the map and, when it fails, `Abort`; stated by `DumpProps.MapPiece` and implemented by `Cartridge.Dumper.MapCartPhys` |
| DumpSpec.SelectBank | software/src/main.c:60-68 | `map_cart_sram`: map 0x4000, write the bank index, map 0x8000, stopping at a failed map; stated by `DumpProps.SelectPiece` |
| DumpSpec.Round | software/src/main.c:151-157 | one loop round: `SelectBank`, then the UART write of the bank's image when both maps succeed; stated by `DumpProps.RoundSafe` and `DumpProps.RoundEffects` |
| DumpSpec.Finish | software/src/main.c:159-166 | the cleanup: `close`, the map of region 0, the RAM-disable write and `return 0`; stated by `DumpProps.FinishSafe` and `DumpProps.FinishEffects` |
| DumpSpec.EnableRamEvents | software/src/main.c:136-148 | the RAM-enable write and, for type 0x03, the map of 0x4000 and the banking-mode write; stated by `DumpProps.EnableSafe` and `DumpProps.EnableEffects` |
| DumpSpec.BankPhase | software/src/main.c:144-166 | the bank loop and the cleanup, reached only when the MBC1 map succeeded; `RunProps.PhaseIsLoop` shows it is `Transfer` from the loop's first map |
| DumpSpec.Dump | software/src/main.c:89-166 | the type switch (`exit()` for an unsupported type), enabling the RAM and the bank phase; implemented by `Cartridge.Dumper.DumpCartridge` |
| DumpSpec.RunTrace | software/src/main.c:71-167 | the whole of `main`: `open` (exit on a negative descriptor), the header map, then `Dump`; produced by `Cartridge.Dumper.Run`, and the lemmas of RunProps (`RunSafe`, `RunEnds`, `RunCloses`, `ClosesTwiceIff`, `RunChunks`) state what it guarantees |
| DumpSpec.Transfer | software/src/main.c:151-166 | the bank loop followed by the cleanup is never an empty log |
| DumpSpec.BankImage | software/src/main.c:155-156 | the bytes sent for a bank are exactly `bank_size` bytes of the window |
| Cartridge.Dumper.constructor | software/src/main.c:32-37 | program start: `uart_dev` is 0, nothing is mapped, no register has been written, the log is empty |
| Cartridge.Dumper.MapCartPhys | software/src/main.c:45-55 | one map call with the next oracle answer; on success the region is mapped; on failure the UART is closed iff `uart_dev` is non-zero, then the process exits |
| Cartridge.Dumper.WriteWindow | software/src/main.c:137-147 | a write to `cart_virt[offset]` logs the write and updates exactly the register the cartridge address selects |
| Cartridge.Dumper.ReadWindow | software/src/main.c:92-105 | reading the window gives the header bytes with region 0 mapped, or the selected bank's bytes with region 0x8000 mapped |
| Cartridge.Dumper.MapCartSram | software/src/main.c:60-68 | maps 0x4000, writes `bank & 0xF` to the bank register, maps 0x8000; on success the save RAM of that bank is mapped and the RAM-enable and banking-mode registers keep their values |
| Cartridge.Dumper.WriteUart | software/src/main.c:155-156 | the UART write logs the data with the oracle's answer, which the caller drops |
| Cartridge.Dumper.SendBank | software/src/main.c:151-157 | one loop round: `map_cart_sram(bank)` and the write of `bank_size` bytes of the window; the loop continues iff both maps succeeded |
| Cartridge.Dumper.SendBanks | software/src/main.c:151-166 | the `for` loop over banks 0..bank_num-1 and the cleanup produce exactly `Transfer`; when it returns, region 0 is mapped and the RAM disabled |
| Cartridge.Dumper.CloseAndDisableRam | software/src/main.c:159-166 | `close`, the map of region 0, the RAM-disable write and `return 0`; on success region 0 is mapped and the RAM disabled |
| Cartridge.Dumper.EnableRam | software/src/main.c:136-148 | writes 0x0A through region 0 and, exactly for type 0x03, maps 0x4000 and writes 1 at 0x2000; the process goes on unless that map fails |
| Cartridge.Dumper.ReadHeader | software/src/main.c:89-134 | the type byte at 0x147 and, for the multi-bank types only, the RAM-size byte at 0x149 give `Resolve` of the header |
| Cartridge.Dumper.DumpCartridge | software/src/main.c:89-166 | with the header mapped: the type switch (an unsupported type exits), enabling the RAM, the bank loop and the cleanup, as `Dump` |
| Cartridge.Dumper.MapRomAndDump | software/src/main.c:80-166 | the map of region 0, then the dump when it succeeded |
| Cartridge.Dumper.Run | software/src/main.c:71-167 | the whole of `main` produces exactly `RunTrace(env)`, for every environment; the object ends with the mapped region and registers `Replay` gives for that log, and a run that returns 0 leaves region 0 mapped and the RAM disabled |
| DumpProps.AbortPiece | software/src/main.c:48-54 | the error path of a failed map touches no register, closes the UART once iff `uart_dev` is non-zero, sends nothing and exits |
| DumpProps.MapPiece | software/src/main.c:45-55 | a map of an aligned region keeps to the window discipline, maps it iff the call succeeds, sends nothing, and otherwise closes (iff `uart_dev` is non-zero) and exits |
| DumpProps.SelectPiece | software/src/main.c:60-68 | `map_cart_sram` keeps to the window discipline and leaves RAM enable and banking mode as they were; when both maps succeed the save RAM is mapped with the bank selected; otherwise the process exits |
| DumpProps.RoundSafe | software/src/main.c:151-157 | a loop round entered with the RAM enabled reads the UART data only from the mapped, enabled, selected bank, and keeps RAM enable and banking mode |
| DumpProps.RoundEffects | software/src/main.c:151-157 | a round closes only when one of its maps fails; it delivers the selected bank's image exactly when both maps and the write succeed |
| DumpProps.FinishSafe | software/src/main.c:159-164 | the cleanup keeps to the window discipline and, when its map succeeds, leaves region 0 mapped and the RAM disabled |
| DumpProps.FinishEffects | software/src/main.c:159-166 | the cleanup closes once and returns 0 when the remap succeeds; when the remap fails it closes a second time (iff `uart_dev` is non-zero) and exits |
| DumpProps.TransferSafe | software/src/main.c:151-164 | the whole loop and cleanup keep to the window discipline and never touch the banking-mode register |
| DumpProps.TransferEnds | software/src/main.c:151-166 | the loop and cleanup end in `return 0` exactly when all their remaining maps succeed, and in `exit()` otherwise |
| DumpProps.TransferTail | software/src/main.c:151-164 | when every map of the loop succeeds, the log ends with the cleanup after the last bank |
| DumpProps.CleanupWindow | software/src/main.c:162-164 | a log ending with the successful cleanup leaves region 0 mapped and the RAM disabled |
| DumpProps.LoopCloses | software/src/main.c:50-51 | the close count of the loop and cleanup is at most 2, and 2 exactly when only the final remap fails and `uart_dev` is non-zero |
| DumpProps.TransferCloses | software/src/main.c:151-163 | the loop and cleanup close the UART `LoopCloses` times, from which of their maps succeed |
| DumpProps.TransferDoubleClose | software/src/main.c:160-163 | a second close happens only as close, failed remap, close, exit at the very end |
| DumpProps.TransferChunks | software/src/main.c:151-157 | with every map succeeding, the UART receives the image of each bank whose write succeeds, in bank order; failed writes do not stop the loop |
| DumpProps.EnableSafe | software/src/main.c:136-148 | enabling the RAM keeps to the window discipline, leaves the RAM enabled, and turns banking mode on exactly for type 0x03 with a successful map |
| DumpProps.EnableEffects | software/src/main.c:136-148 | enabling the RAM starts with the 0x0A write, sends nothing, and closes and exits only when the MBC1 map fails |
| RunProps.RunSafe | software/src/main.c:71-166 | every run keeps to the window discipline; banking mode ends up on exactly for type 0x03 after a successful map of 0x4000, and is otherwise never written |
| RunProps.RunEnds | software/src/main.c:71-166 | `main` returns 0 exactly when the UART opens, the type is supported and every map succeeds, and the log then ends with the cleanup; every other run ends in `exit()` |
| RunProps.NormalRunDisablesRam | software/src/main.c:160-164 | a run that returns normally leaves region 0 mapped and the RAM disabled |
| RunProps.NormalClosesOnce | software/src/main.c:159-166 | a run that returns normally closes the UART exactly once |
| RunProps.EarlyExitCloses | software/src/main.c:74-133 | a run that stops before enabling the RAM (open fails, header map fails, unsupported type) closes the UART at most once and does not return normally |
| RunProps.RunCloses | software/src/main.c:45-166 | every run closes the UART at most twice, and a run that closes it twice ends with close, failed remap, close, exit |
| RunProps.ClosesTwiceIff | software/src/main.c:160-163 | `main` closes the UART twice exactly when it opened as a non-zero device, the type is supported, every map before the final one succeeds and the final remap of region 0 fails |
| RunProps.RemapTail | software/src/main.c:159-163 | those runs end with close, failed remap, close, exit |
| RunProps.DoubleCloseWitness | software/src/main.c:160-163 | a concrete MBC2 run whose fourth map fails closes the UART twice |
| RunProps.UnsupportedLeavesUartOpen | software/src/main.c:131-133 | an unsupported type exits right after the header map, with no cartridge write, no UART data and no close |
| RunProps.SingleBankStillSelects | software/src/main.c:126-152 | type 0x06 resolves to one bank of 512 bytes and still maps 0x4000 and writes bank 0 to the bank register |
| RunProps.RunChunks | software/src/main.c:151-157 | in a run where every map up to the loop's last one succeeds, the UART receives the image of every bank whose write succeeds, in ascending bank order |
| RunProps.AllBanksDelivered | software/src/main.c:151-157 | with every map of the loop and every write succeeding, the UART receives exactly `bank_num` chunks, chunk i being bank i's `bank_size` bytes, `bank_num * bank_size` bytes in all |
| RunProps.WriteResultsIgnored | software/src/main.c:155-156 | the UART write results change neither whether `main` returns 0 nor whether it closes the UART twice |
| Host.ShiftLeft | dump.py:41 | Python's `x << n` on naturals; `Host.ShiftLeftByte` states that a shift by 8 multiplies by 256 |
| Host.ShiftLeftByte | dump.py:41 | `x << 8` is `256 * x` |
| Host.Or | dump.py:41 | `a \| b` is at least each operand and at most their sum |
| Host.OrDisjoint | dump.py:41 | `lo \| (hi << k)` is `lo + hi * 2^k` when `lo` has no bit at or above `k` |
| Host.LittleEndian16 | dump.py:41 | `bytes[2] \| (bytes[3] << 8)` is `bytes[2] + 256 * bytes[3]` and at most 0xFFFF |
| Host.DecodeHeader | dump.py:34-41 | the reply is refused iff it is shorter than 4 bytes or does not start with `'='`; a wrong first byte is reported as found; an accepted reply gives `bank_num = bytes[1]` and `bank_size` little-endian |
| Host.EncodeHeader | dump.py:30-33 | the reply a device sends: 4 bytes, `'='` first, the bank count second |
| Host.DecodeEncode | dump.py:34-41 | decoding the encoding of any header with a 16-bit bank size gives that header back |
| Host.EncodeDecode | dump.py:34-41 | an accepted reply's first 4 bytes are the encoding of what it decodes to |
| Host.Total | dump.py:42 | `total = bank_num * bank_size`; bounded by `Host.TotalBound`, and the number of bytes `Host.StoresPayloadUnchanged` reads |
| Host.TotalBound | dump.py:42 | `total = bank_num * bank_size` is at most 255 * 65535 |
| Host.FourBanksOfEightKB | dump.py:34-42 | the reply `= 4 0x00 0x20` decodes to 4 banks of 8192 bytes, 32768 bytes in all |
| Host.ReadSerial | dump.py:34 | `ser.read(n)` returns `min(n, available)` bytes, and those bytes followed by what is left make up the line |
| Host.HostRun | dump.py:28-50 | the script from `ser.write(b'!')` on, as host events; its ordering and outcomes are stated by `Host.RequestBeforeRead`, `Host.RejectsBadReply`, `Host.StoresPayloadUnchanged` and `Host.DumpArrives` |
| Host.RequestBeforeRead | dump.py:28-34 | the script sends one `'!'` before it reads anything, and sends nothing else |
| Host.RejectsBadReply | dump.py:34-38 | the script ends with status 1 exactly when the reply is short or lacks `'='`, and then stores nothing |
| Host.StoresPayloadUnchanged | dump.py:40-50 | on an accepted reply the script reads `total` bytes and stores exactly the bytes it received, unchanged |
| Host.DumpArrives | dump.py:28-50 | a device that sends the encoded header and then the full dump has the dump stored unchanged |

## Left out

- The bodies of `open`, `map`, `write`, `close` and `exit` are not part of this model. They are foreign calls: their answers come from the environment (`Env`), and `exit()` ends the log.
- The game title print and every `printf` are left out (software/src/main.c:84-87, 96, 124, 129, 132, 49, 76). They go to the console, not the UART, and decide nothing.
- What the cartridge hardware latches is not modelled. The window's contents are given by the environment: the header with region 0 mapped, or the bytes of the bank last written to the bank register with region 0x8000 mapped.
- `GB_PHYS_ADDR + cart_addr` is not computed. A map event records the 16 KB-aligned cartridge offset it asks for.
- Cartridge.Dumper.WriteUart: a failed UART write is modelled as delivering nothing. A partial write, where `write` shortens `size`, is not modelled.
- `uint8_t` wrap of the bank counter is not modelled. The count is at most 16, so it cannot wrap. `bank & 0xF` is written out.
- The device-side `'!'`/`'='` handshake is not modelled, because `software/src/main.c` does not contain one.
  - The host side of the protocol is modelled on its own.
  - The two halves are not composed: as written, `main.c` sends bank data without the 4-byte header the host expects.
- The host's command-line parsing, the opening of the serial port and of the output file, the prints and `outfile.close()` are left out (dump.py:1-25, 44, 53-54). They are argument handling and I/O.
- Host.DecodeHeader: a reply too short to index is modelled as the error `Truncated`. In Python it is an `IndexError` that ends the script with status 1. The traceback text is not modelled.
- Host.ReadSerial: the read timeout (`args.baudrate` seconds, dump.py:22) is modelled only as "whatever bytes have arrived". Timing and the baud rate are left out.
- RunProps.RunChunks: stated for runs in which every map up to the bank loop's last one succeeds (`LoopRuns`). When a map of the loop fails, the run exits right after the last bank it delivered; `DumpProps.RoundEffects` covers that round.
- RunProps.AllBanksDelivered: stated only when every UART write also succeeds. With failed writes, `RunProps.RunChunks` gives the delivered banks instead.
