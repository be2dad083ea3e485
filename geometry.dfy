/** The cartridge geometry table of software/src/main.c: the cartridge type
    byte (header offset 0x147) and the RAM-size code (header offset 0x149)
    decide how many save-RAM banks there are and how large each one is. */
module Geometry {
  import opened Common

  /** GB_SRAM_BANK_SIZE: each save-RAM bank of the multi-bank family is 8 KB. */
  const SRAM_BANK_SIZE: nat := 8 * 1024

  /** The MBC2 family (type 0x06) has a single 512-byte RAM. */
  const MBC2_RAM_SIZE: nat := 512

  const MBC1_RAM_BATT: byte := 0x03
  const MBC2_RAM_BATT: byte := 0x06

  /** What `main` resolves: `bank_num` (a `uint8_t`) and `bank_size` (a `uint16_t`). */
  datatype Geometry = Geometry(bankNum: byte, bankSize: nat)

  /** The type codes handled by the first group of `case` labels: MBC1, ROM,
      MBC3, MBC5 and MBC5+RUMBLE, each with RAM and battery. */
  predicate IsMultiBank(cartType: byte) {
    cartType == 0x03 || cartType == 0x10 || cartType == 0x13 || cartType == 0x1B || cartType == 0x1E
  }

  predicate IsSupported(cartType: byte) {
    IsMultiBank(cartType) || cartType == MBC2_RAM_BATT
  }

  /** The inner `switch` on the RAM-size code; the result is in KB. */
  function RamSizeKB(code: byte): (kb: nat)
    ensures kb != 0 <==> 2 <= code <= 5
    ensures kb % 8 == 0 && kb <= 128
  {
    match code
    case 2 => 8
    case 3 => 32
    case 4 => 128
    case 5 => 64
    case _ => 0
  }

  /** `bank_num = size >> 3`: the number of 8 KB banks in `size` KB. */
  function BankCount(code: byte): (n: byte)
    ensures n as nat * 8 == RamSizeKB(code)
    ensures n as nat * SRAM_BANK_SIZE == RamSizeKB(code) * 1024
    ensures n <= 16
  {
    (RamSizeKB(code) / 8) as byte
  }

  /** The outer `switch`: `None` is the `default` label, which exits. */
  function Resolve(cartType: byte, ramCode: byte): (r: Option<Geometry>)
    ensures r.Some? <==> IsSupported(cartType)
    ensures r.Some? ==> r.value.bankNum <= 16 && 0 < r.value.bankSize <= SRAM_BANK_SIZE <= UINT16_MAX
    ensures r.Some? ==> (r.value.bankSize == MBC2_RAM_SIZE <==> cartType == MBC2_RAM_BATT)
    ensures r.Some? && !IsMultiBank(cartType) ==> r.value.bankNum == 1
    ensures r.Some? && IsMultiBank(cartType) ==> r.value.bankSize == SRAM_BANK_SIZE
    ensures r.Some? && IsMultiBank(cartType) ==>
              r.value.bankNum as nat * r.value.bankSize == RamSizeKB(ramCode) * 1024
  {
    if IsMultiBank(cartType) then Some(Geometry(BankCount(ramCode), SRAM_BANK_SIZE))
    else if cartType == MBC2_RAM_BATT then Some(Geometry(1, MBC2_RAM_SIZE))
    else None
  }

  /** The RAM-size code only matters for the multi-bank family. */
  lemma RamCodeIgnoredOutsideMultiBank(cartType: byte, code1: byte, code2: byte)
    requires !IsMultiBank(cartType)
    ensures Resolve(cartType, code1) == Resolve(cartType, code2)
  {
  }

  /** Code 2, 3, 4, 5 give 8, 32, 128, 64 KB; every other code gives 0. */
  lemma RamSizeTable(code: byte)
    ensures RamSizeKB(code) == (if code == 2 then 8 else if code == 3 then 32
                                else if code == 4 then 128 else if code == 5 then 64 else 0)
  {
  }

  /** Code 2, 3, 4, 5 give 1, 4, 16, 8 banks; every other code gives 0. */
  lemma BankCountTable(code: byte)
    ensures BankCount(code) == (if code == 2 then 1 else if code == 3 then 4
                                else if code == 4 then 16 else if code == 5 then 8 else 0)
  {
  }
}
