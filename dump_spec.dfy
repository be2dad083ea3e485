/** Reference semantics of the save dump in software/src/main.c.

    The program's effects on the world (the serial device, the memory
    mapper, the cartridge registers, process exit) are recorded as a log of
    events. `RunTrace(env)` is the log `main` produces for a given
    environment `env`, which supplies the answers of the foreign calls
    (`open`, `map`, `write`) and the bytes the 16 KB window shows. The
    imperative model in module Cartridge is proved to produce exactly this
    log; modules DumpProps and RunProps state what the log guarantees. */
module DumpSpec {
  import opened Common
  import opened Geometry

  /** Size of the virtual window (virtual page 3) and mapping granularity. */
  const WINDOW_SIZE: nat := 0x4000

  /** The three cartridge regions `main` maps into the window. */
  const ROM_REGION: nat := 0x0000
  const CONTROL_REGION: nat := 0x4000
  const SRAM_REGION: nat := 0x8000

  const TYPE_OFFSET: nat := 0x147
  const RAM_SIZE_OFFSET: nat := 0x149
  /** Offset inside the control region that reaches cartridge address 0x6000. */
  const BANKING_MODE_OFFSET: nat := 0x2000

  const RAM_ENABLE: byte := 0x0A
  const RAM_DISABLE: byte := 0
  const BANKING_MODE_RAM: byte := 1

  /** One externally visible effect of the program.
      - `Map(offset, ok)`: the map of cartridge offset `offset` into the window and whether it succeeded;
      - `CartWrite(region, offset, value)`: `cart_virt[offset] = value` while `region` is mapped;
      - `UartWrite(dev, data, ok)`: `write(dev, data, ...)` and whether it succeeded;
      - `Exit`: the `exit()` system call; `Return(code)`: `main` returning. */
  datatype Event =
    | Open(dev: int)
    | Map(offset: nat, ok: bool)
    | CartWrite(region: nat, offset: nat, value: byte)
    | UartWrite(dev: int, data: seq<byte>, ok: bool)
    | Close(dev: int)
    | Exit
    | Return(code: int)

  /** The cartridge registers `main` writes, named after the cartridge
      address ranges its comments give. */
  datatype Register = RamEnableReg | RamBankReg | BankingModeReg | OtherAddress

  function RegisterAt(cartAddr: nat): Register {
    if cartAddr < 0x2000 then RamEnableReg
    else if 0x4000 <= cartAddr < 0x6000 then RamBankReg
    else if 0x6000 <= cartAddr < 0x8000 then BankingModeReg
    else OtherAddress
  }

  /** The window and the cartridge registers as a log leaves them. */
  datatype Window = Window(
    mapped: Option<nat>,
    ramEnable: Option<byte>,
    ramBank: Option<byte>,
    bankingMode: Option<byte>)

  /** Program start: nothing mapped, no register written. */
  const Reset: Window := Window(None, None, None, None)

  /** The effect of one event: a map changes the region shown, a cartridge
      write records its value in the register its address selects. */
  function Apply(w: Window, e: Event): Window {
    if e.Map? then w.(mapped := if e.ok then Some(e.offset) else None)
    else if e.CartWrite? then
      match RegisterAt(e.region + e.offset)
      case RamEnableReg => w.(ramEnable := Some(e.value))
      case RamBankReg => w.(ramBank := Some(e.value))
      case BankingModeReg => w.(bankingMode := Some(e.value))
      case OtherAddress => w
    else w
  }

  /** The state after `log`, starting from `w`. */
  function Replay(w: Window, log: seq<Event>): Window
    decreases |log|
  {
    if log == [] then w else Replay(Apply(w, log[0]), log[1..])
  }

  /** Replaying one more event applies it to the state before it. */
  lemma {:induction false} ReplaySnoc(w: Window, log: seq<Event>, e: Event)
    ensures Replay(w, log + [e]) == Apply(Replay(w, log), e)
    decreases |log|
  {
    if log == [] {
      assert log + [e] == [e];
      assert [e][1..] == [];
    } else {
      assert (log + [e])[0] == log[0];
      assert (log + [e])[1..] == log[1..] + [e];
      ReplaySnoc(Apply(w, log[0]), log[1..], e);
    }
  }

  /** The environment of one run.
      - `openResult`: what `open("#SER0", O_WRONLY)` returns (negative is an error);
      - `mapOk(k)`: whether the k-th call to `map` (counting from 0) succeeds;
      - `writeOk(b)`: whether the UART `write` for bank `b` succeeds;
      - `rom0`: the window's bytes while region 0 (ROM bank 0, the header) is mapped;
      - `sram(r)`: the window's bytes while region 0x8000 is mapped and the
        cartridge's RAM-bank register last received `r`. */
  datatype Env = Env(
    openResult: int,
    mapOk: nat -> bool,
    writeOk: nat -> bool,
    rom0: seq<byte>,
    sram: byte -> seq<byte>)

  ghost predicate WellFormed(env: Env) {
    |env.rom0| == WINDOW_SIZE && forall r: byte :: |env.sram(r)| == WINDOW_SIZE
  }

  // ---------------------------------------------------------------------
  // The reference semantics of `map_cart_phys`, `map_cart_sram` and `main`.

  /** The cleanup on a failed map: close the UART when `uart_dev` is
      non-zero, then exit. */
  function Abort(dev: int): seq<Event> {
    (if dev != 0 then [Close(dev)] else []) + [Exit]
  }

  /** `map_cart_phys(offset)` as the `call`-th map of the run. */
  function MapEvents(env: Env, dev: int, call: nat, offset: nat): seq<Event> {
    [Map(offset, env.mapOk(call))] + (if env.mapOk(call) then [] else Abort(dev))
  }

  /** `map_cart_sram(bank)` with `sel == bank & 0xF`: map the control
      region, write the bank index at offset 0, map the save-RAM region. */
  function SelectBank(env: Env, dev: int, call: nat, sel: byte): seq<Event> {
    MapEvents(env, dev, call, CONTROL_REGION) +
    (if env.mapOk(call) then [CartWrite(CONTROL_REGION, 0, sel)] + MapEvents(env, dev, call + 1, SRAM_REGION)
     else [])
  }

  /** The `bank_size` bytes at the window's base once bank `bank` is selected. */
  function BankImage(env: Env, g: Geometry, bank: nat): (image: seq<byte>)
    requires WellFormed(env) && g.bankSize <= WINDOW_SIZE
    ensures |image| == g.bankSize
  {
    env.sram((bank % 16) as byte)[..g.bankSize]
  }

  /** After the loop: close the UART, map region 0 and disable the RAM. */
  function Finish(env: Env, dev: int, call: nat): seq<Event> {
    [Close(dev)] + MapEvents(env, dev, call, ROM_REGION) +
    (if env.mapOk(call) then [CartWrite(ROM_REGION, 0, RAM_DISABLE), Return(0)] else [])
  }

  /** One round of the bank loop: `map_cart_sram(bank)` and, when both of
      its maps succeed, the UART write of the bank's bytes. */
  function Round(env: Env, dev: int, g: Geometry, call: nat, bank: nat): seq<Event>
    requires WellFormed(env) && g.bankSize <= WINDOW_SIZE
  {
    SelectBank(env, dev, call, (bank % 16) as byte) +
    (if env.mapOk(call) && env.mapOk(call + 1) then [UartWrite(dev, BankImage(env, g, bank), env.writeOk(bank))] else [])
  }

  /** The bank loop from bank `bank` on, then `Finish`; `call` is the index
      of the next map. The result of each UART write is ignored: only a
      failed map stops the loop. */
  function Transfer(env: Env, dev: int, g: Geometry, call: nat, bank: nat): (t: seq<Event>)
    requires WellFormed(env) && g.bankSize <= WINDOW_SIZE
    ensures |t| > 0
    decreases g.bankNum as int - bank
  {
    if bank >= g.bankNum as nat then Finish(env, dev, call)
    else if env.mapOk(call) && env.mapOk(call + 1) then Round(env, dev, g, call, bank) + Transfer(env, dev, g, call + 2, bank + 1)
    else Round(env, dev, g, call, bank)
  }

  lemma TransferStep(env: Env, dev: int, g: Geometry, call: nat, bank: nat)
    requires WellFormed(env) && g.bankSize <= WINDOW_SIZE && bank < g.bankNum as nat
    ensures Transfer(env, dev, g, call, bank) ==
              if env.mapOk(call) && env.mapOk(call + 1) then Round(env, dev, g, call, bank) + Transfer(env, dev, g, call + 2, bank + 1)
              else Round(env, dev, g, call, bank)
  {
  }

  function CartType(env: Env): byte
    requires WellFormed(env)
  {
    env.rom0[TYPE_OFFSET]
  }

  function RamCode(env: Env): byte
    requires WellFormed(env)
  {
    env.rom0[RAM_SIZE_OFFSET]
  }

  /** `cart_virt[0] = 0xA` with region 0 mapped and, for MBC1 only, map
      the control region (as the `call`-th map) and write 1 at offset
      0x2000 to select RAM banking mode. */
  function EnableRamEvents(env: Env, dev: int, cartType: byte, call: nat): seq<Event> {
    [CartWrite(ROM_REGION, 0, RAM_ENABLE)] +
    if cartType != MBC1_RAM_BATT then []
    else
      MapEvents(env, dev, call, CONTROL_REGION) +
      (if env.mapOk(call) then [CartWrite(CONTROL_REGION, BANKING_MODE_OFFSET, BANKING_MODE_RAM)] else [])
  }

  /** The bank loop and cleanup once the RAM is enabled; for MBC1 it
      starts only when the map of the control region succeeded. */
  function BankPhase(env: Env, dev: int, g: Geometry, cartType: byte): seq<Event>
    requires WellFormed(env) && g.bankSize <= WINDOW_SIZE
  {
    if cartType != MBC1_RAM_BATT then Transfer(env, dev, g, 1, 0)
    else if env.mapOk(1) then Transfer(env, dev, g, 2, 0)
    else []
  }

  /** Everything after the header is mapped: the geometry switch, enabling
      the RAM, the bank loop and the cleanup. */
  function Dump(env: Env, dev: int): seq<Event>
    requires WellFormed(env)
  {
    var cartType := CartType(env);
    match Resolve(cartType, RamCode(env))
    case None => [Exit]
    case Some(g) => EnableRamEvents(env, dev, cartType, 1) + BankPhase(env, dev, g, cartType)
  }

  /** The whole of `main`, from `open` to `return 0` or `exit()`. */
  function RunTrace(env: Env): seq<Event>
    requires WellFormed(env)
  {
    var dev := env.openResult;
    if dev < 0 then [Open(dev), Exit]
    else [Open(dev)] + MapEvents(env, dev, 0, ROM_REGION) + (if env.mapOk(0) then Dump(env, dev) else [])
  }
}
