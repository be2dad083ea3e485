/** The imperative part of software/src/main.c: the globals `uart_dev` and
    `cart_virt`, `map_cart_phys`, `map_cart_sram` and `main`. The mapped
    region and the cartridge registers are explicit fields; every access to
    the window states which region it needs. */
module Cartridge {
  import opened Common
  import opened Geometry
  import opened DumpSpec
  import opened DumpProps
  import opened RunProps

  class Dumper {
    /** Answers of the foreign calls and the window contents for this run. */
    const env: Env

    /** The global `uart_dev`. */
    var uartDev: int
    /** The cartridge region the window shows, if the last map succeeded. */
    var mappedRegion: Option<nat>
    /** Last values written to the cartridge's RAM-enable, RAM-bank and
        banking-mode registers. */
    var ramEnable: Option<byte>
    var ramBank: Option<byte>
    var bankingMode: Option<byte>
    /** Number of `map` calls so far: the index of the next answer in `env.mapOk`. */
    var mapCalls: nat
    /** Every effect so far, in order. */
    var log: seq<Event>

    /** The environment is well formed, the window only ever shows a
        16 KB-aligned region, and the mapped region and the registers are
        the state the log leaves them in. */
    ghost predicate Valid()
      reads this
    {
      WellFormed(env) &&
      (mappedRegion.Some? ==> mappedRegion.value % WINDOW_SIZE == 0) &&
      Replay(Reset, log) == Window(mappedRegion, ramEnable, ramBank, bankingMode)
    }

    /** Record an effect that changes neither the mapping nor a register. */
    method Emit(e: Event)
      requires Valid() && !e.Map? && !e.CartWrite?
      modifies this`log
      ensures Valid() && log == old(log) + [e]
    {
      ReplaySnoc(Reset, log, e);
      log := log + [e];
    }

    /** Program start: `uart_dev = 0`, nothing mapped, nothing done. */
    constructor (env: Env)
      requires WellFormed(env)
      ensures Valid() && this.env == env
      ensures uartDev == 0 && mapCalls == 0 && log == []
      ensures mappedRegion == None && ramEnable == None && ramBank == None && bankingMode == None
    {
      this.env := env;
      uartDev := 0;
      mappedRegion := None;
      ramEnable, ramBank, bankingMode := None, None, None;
      mapCalls := 0;
      log := [];
    }

    /** `map_cart_phys(cartAddr)`: map cartridge address `cartAddr` into
        the window; on failure close the UART when `uart_dev` is non-zero and
        exit. `ok == false` means the process has exited. */
    method MapCartPhys(cartAddr: nat) returns (ok: bool)
      requires Valid()
      requires cartAddr % WINDOW_SIZE == 0 && cartAddr <= UINT16_MAX
      modifies this`log, this`mappedRegion, this`mapCalls
      ensures Valid()
      ensures ok == env.mapOk(old(mapCalls)) && mapCalls == old(mapCalls) + 1
      ensures log == old(log) + MapEvents(env, uartDev, old(mapCalls), cartAddr)
      ensures mappedRegion == if ok then Some(cartAddr) else None
    {
      ok := env.mapOk(mapCalls);
      mapCalls := mapCalls + 1;
      ReplaySnoc(Reset, log, Map(cartAddr, ok));
      log := log + [Map(cartAddr, ok)];
      if ok {
        mappedRegion := Some(cartAddr);
      } else {
        mappedRegion := None;
        if uartDev != 0 {
          Emit(Close(uartDev));
        }
        Emit(Exit);
      }
    }

    /** `cart_virt[offset] = value`: a write to a cartridge register. It
        needs a mapped region, and the address it reaches lies in the
        cartridge's ROM address range, where the registers are. */
    method WriteWindow(offset: nat, value: byte)
      requires Valid()
      requires mappedRegion.Some? && offset < WINDOW_SIZE && mappedRegion.value + offset < SRAM_REGION
      modifies this`log, this`ramEnable, this`ramBank, this`bankingMode
      ensures Valid()
      ensures log == old(log) + [CartWrite(mappedRegion.value, offset, value)]
      ensures var reg := RegisterAt(mappedRegion.value + offset);
              && ramEnable == (if reg == RamEnableReg then Some(value) else old(ramEnable))
              && ramBank == (if reg == RamBankReg then Some(value) else old(ramBank))
              && bankingMode == (if reg == BankingModeReg then Some(value) else old(bankingMode))
    {
      ReplaySnoc(Reset, log, CartWrite(mappedRegion.value, offset, value));
      log := log + [CartWrite(mappedRegion.value, offset, value)];
      match RegisterAt(mappedRegion.value + offset)
      case RamEnableReg => ramEnable := Some(value);
      case RamBankReg => ramBank := Some(value);
      case BankingModeReg => bankingMode := Some(value);
      case OtherAddress =>
    }

    /** Reading `len` bytes at `offset` of the window: the header while
        region 0 is mapped, or the selected RAM bank while region 0x8000
        is mapped. */
    method ReadWindow(offset: nat, len: nat) returns (data: seq<byte>)
      requires Valid() && offset + len <= WINDOW_SIZE
      requires mappedRegion == Some(ROM_REGION) || (mappedRegion == Some(SRAM_REGION) && ramBank.Some?)
      ensures |data| == len
      ensures mappedRegion == Some(ROM_REGION) ==> data == env.rom0[offset..offset + len]
      ensures mappedRegion == Some(SRAM_REGION) ==> data == env.sram(ramBank.value)[offset..offset + len]
    {
      if mappedRegion == Some(ROM_REGION) {
        data := env.rom0[offset..offset + len];
      } else {
        data := env.sram(ramBank.value)[offset..offset + len];
      }
    }

    /** `map_cart_sram(bank)`: write `bank & 0xF` at offset 0 of the
        control region, then map the save-RAM region. */
    method MapCartSram(bank: byte) returns (ok: bool)
      requires Valid()
      modifies this`log, this`mappedRegion, this`mapCalls, this`ramEnable, this`ramBank, this`bankingMode
      ensures Valid()
      ensures ok == (env.mapOk(old(mapCalls)) && env.mapOk(old(mapCalls) + 1))
      ensures ok ==> mapCalls == old(mapCalls) + 2
      ensures log == old(log) + SelectBank(env, uartDev, old(mapCalls), (bank as int % 16) as byte)
      ensures ok ==> mappedRegion == Some(SRAM_REGION) && ramBank == Some((bank as int % 16) as byte)
      ensures ok ==> ramEnable == old(ramEnable) && bankingMode == old(bankingMode)
    {
      ghost var log0, call := log, mapCalls;
      var sel := (bank as int % 16) as byte;
      ok := MapCartPhys(CONTROL_REGION);
      if !ok {
        assert SelectBank(env, uartDev, call, sel) == MapEvents(env, uartDev, call, CONTROL_REGION) + [];
        return;
      }
      WriteWindow(0, sel);
      ghost var log1 := log;
      ok := MapCartPhys(SRAM_REGION);
      assert log == log0 + SelectBank(env, uartDev, call, sel) by {
        assert SelectBank(env, uartDev, call, sel) ==
          MapEvents(env, uartDev, call, CONTROL_REGION) + ([CartWrite(CONTROL_REGION, 0, sel)] + MapEvents(env, uartDev, call + 1, SRAM_REGION));
      }
    }

    /** `write(uart_dev, data, &size)` for bank `bank`. */
    method WriteUart(bank: nat, data: seq<byte>) returns (ok: bool)
      requires Valid() && mappedRegion == Some(SRAM_REGION)
      modifies this`log
      ensures Valid() && ok == env.writeOk(bank)
      ensures log == old(log) + [UartWrite(uartDev, data, ok)]
    {
      ok := env.writeOk(bank);
      Emit(UartWrite(uartDev, data, ok));
    }

    /** One round of the bank loop: `map_cart_sram(bank)`, then
        `write(uart_dev, cart_virt, &size)` of `bank_size` bytes, whose
        result is ignored. */
    method SendBank(g: Geometry, bank: nat) returns (running: bool)
      requires Valid() && g.bankSize <= WINDOW_SIZE && bank < 256
      modifies this`log, this`mappedRegion, this`mapCalls, this`ramEnable, this`ramBank, this`bankingMode
      ensures Valid()
      ensures running == (env.mapOk(old(mapCalls)) && env.mapOk(old(mapCalls) + 1))
      ensures running ==> mapCalls == old(mapCalls) + 2
      ensures log == old(log) + Round(env, uartDev, g, old(mapCalls), bank)
    {
      running := MapCartSram(bank as byte);
      if !running {
        return;
      }
      var chunk := ReadWindow(0, g.bankSize);
      var _ := WriteUart(bank, chunk);
    }

    /** The cleanup after the loop: `close(uart_dev)`, then map region 0
        and write 0 to disable the RAM. `running` is false when the map
        failed and the process exited. */
    method CloseAndDisableRam() returns (running: bool)
      requires Valid()
      modifies this`log, this`mappedRegion, this`mapCalls, this`ramEnable, this`ramBank, this`bankingMode
      ensures Valid()
      ensures log == old(log) + Finish(env, uartDev, old(mapCalls))
      ensures running == env.mapOk(old(mapCalls))
      ensures running ==> mappedRegion == Some(ROM_REGION) && ramEnable == Some(RAM_DISABLE)
    {
      ghost var before, call := log, mapCalls;
      Emit(Close(uartDev));
      running := MapCartPhys(ROM_REGION);
      if !running {
        assert log == before + ([Close(uartDev)] + MapEvents(env, uartDev, call, ROM_REGION) + []);
        return;
      }
      WriteWindow(0, RAM_DISABLE);
      Emit(Return(0));
      assert log == before + ([Close(uartDev)] + MapEvents(env, uartDev, call, ROM_REGION) + [CartWrite(ROM_REGION, 0, RAM_DISABLE), Return(0)]);
    }

    /** The bank loop of `main` for banks 0 to `bank_num - 1`, then the
        cleanup. `running` is false when a failed map made the process exit. */
    method SendBanks(g: Geometry) returns (running: bool)
      requires Valid() && g.bankSize <= WINDOW_SIZE
      modifies this`log, this`mappedRegion, this`mapCalls, this`ramEnable, this`ramBank, this`bankingMode
      ensures Valid()
      ensures log == old(log) + Transfer(env, uartDev, g, old(mapCalls), 0)
      ensures running ==> mappedRegion == Some(ROM_REGION) && ramEnable == Some(RAM_DISABLE)
    {
      ghost var goal := old(log) + Transfer(env, uartDev, g, mapCalls, 0);
      for bank := 0 to g.bankNum as int
        invariant Valid()
        invariant log + Transfer(env, uartDev, g, mapCalls, bank) == goal
      {
        ghost var before, call := log, mapCalls;
        running := SendBank(g, bank);
        TransferStep(env, uartDev, g, call, bank);
        if !running {
          return;
        }
        AppendAssoc(before, Round(env, uartDev, g, call, bank), Transfer(env, uartDev, g, mapCalls, bank + 1));
      }
      running := CloseAndDisableRam();
    }

    /** Enable the cartridge RAM through region 0 and, for MBC1 only,
        select RAM banking mode through the control region. `running` is
        false when the map failed and the process exited. */
    method EnableRam(cartType: byte) returns (running: bool)
      requires Valid() && mappedRegion == Some(ROM_REGION)
      modifies this`log, this`mappedRegion, this`mapCalls, this`ramEnable, this`ramBank, this`bankingMode
      ensures Valid()
      ensures log == old(log) + EnableRamEvents(env, uartDev, cartType, old(mapCalls))
      ensures running == (cartType != MBC1_RAM_BATT || env.mapOk(old(mapCalls)))
      ensures mapCalls == old(mapCalls) + (if cartType == MBC1_RAM_BATT then 1 else 0)
    {
      ghost var before := log;
      WriteWindow(0, RAM_ENABLE);
      running := true;
      if cartType == MBC1_RAM_BATT {
        running := MapCartPhys(CONTROL_REGION);
        if running {
          WriteWindow(BANKING_MODE_OFFSET, BANKING_MODE_RAM);
        }
      }
      assert log == before + EnableRamEvents(env, uartDev, cartType, old(mapCalls));
    }

    /** The header reads of `main`: the cartridge type, and the RAM size
        code only for the multi-bank types, resolved into a geometry. */
    method ReadHeader() returns (cartType: byte, geometry: Option<Geometry>)
      requires Valid() && mappedRegion == Some(ROM_REGION)
      ensures cartType == CartType(env)
      ensures geometry == Resolve(CartType(env), RamCode(env))
    {
      var typeByte := ReadWindow(TYPE_OFFSET, 1);
      cartType := typeByte[0];
      var ramCode: byte := 0;
      if IsMultiBank(cartType) {
        var sizeByte := ReadWindow(RAM_SIZE_OFFSET, 1);
        ramCode := sizeByte[0];
      } else {
        RamCodeIgnoredOutsideMultiBank(cartType, ramCode, RamCode(env));
      }
      geometry := Resolve(cartType, ramCode);
    }

    /** Everything `main` does once the ROM window is mapped. */
    method DumpCartridge()
      requires Valid() && mappedRegion == Some(ROM_REGION) && mapCalls == 1
      modifies this`log, this`mappedRegion, this`mapCalls, this`ramEnable, this`ramBank, this`bankingMode
      ensures Valid()
      ensures log == old(log) + Dump(env, uartDev)
    {
      var cartType, geometry := ReadHeader();
      if geometry.None? {
        Emit(Exit);
        return;
      }
      var g := geometry.value;
      ghost var before := log;
      ghost var enable := EnableRamEvents(env, uartDev, cartType, mapCalls);
      ghost var phase := BankPhase(env, uartDev, g, cartType);
      var running := EnableRam(cartType);
      assert Dump(env, uartDev) == enable + phase;
      AppendAssoc(before, enable, phase);
      if !running {
        assert phase == [];
        return;
      }
      assert phase == Transfer(env, uartDev, g, mapCalls, 0);
      running := SendBanks(g);
    }

    /** `main` after the UART is open: map the ROM window, then dump. */
    method MapRomAndDump()
      requires Valid() && mapCalls == 0 && uartDev >= 0
      modifies this`log, this`mappedRegion, this`mapCalls, this`ramEnable, this`ramBank, this`bankingMode
      ensures Valid()
      ensures log == old(log) + MapEvents(env, uartDev, 0, ROM_REGION)
                    + (if env.mapOk(0) then Dump(env, uartDev) else [])
    {
      ghost var before := log;
      var running := MapCartPhys(ROM_REGION);
      ghost var head := log;
      ghost var tail := if running then Dump(env, uartDev) else [];
      if !running {
        assert head + tail == head;
        return;
      }
      DumpCartridge();
      assert log == head + tail;
      AppendAssoc(before, MapEvents(env, uartDev, 0, ROM_REGION), tail);
    }

    /** `main`: open the UART, map the header, resolve the geometry from
        the type byte at 0x147 and the RAM-size byte at 0x149, enable the
        RAM, then `SendBanks`. A run that returns 0 leaves region 0 mapped
        and the RAM disabled. */
    method Run()
      requires Valid() && log == [] && uartDev == 0 && mapCalls == 0
      modifies this
      ensures Valid()
      ensures log == RunTrace(env)
      ensures Window(mappedRegion, ramEnable, ramBank, bankingMode) == Replay(Reset, RunTrace(env))
      ensures Completed(log) ==> mappedRegion == Some(ROM_REGION) && ramEnable == Some(RAM_DISABLE)
    {
      uartDev := env.openResult;
      Emit(Open(uartDev));
      assert log == [Open(env.openResult)];
      if uartDev < 0 {
        Emit(Exit);
        assert log == RunTrace(env);
        return;
      }
      MapRomAndDump();
      assert log == RunTrace(env);
      if Completed(log) {
        RunEnds(env);
        NormalRunDisablesRam(env);
      }
    }
  }
}
