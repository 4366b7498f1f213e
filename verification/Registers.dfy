/**
 * The register map of the gpsdocfg core: eighteen 16-bit registers at
 * addresses 0x00 to 0x11, and the field layout of CONTROL and STATUS.
 */
module Registers {

  const CONTROL: int := 0x00
  const PPS_1S_TARGET_L: int := 0x01
  const PPS_1S_TARGET_H: int := 0x02
  const PPS_1S_ERR_TOL: int := 0x03
  const PPS_10S_TARGET_L: int := 0x04
  const PPS_10S_TARGET_H: int := 0x05
  const PPS_10S_ERR_TOL: int := 0x06
  const PPS_100S_TARGET_L: int := 0x07
  const PPS_100S_TARGET_H: int := 0x08
  const PPS_100S_ERR_TOL: int := 0x09
  const PPS_1S_ERR_L: int := 0x0A
  const PPS_1S_ERR_H: int := 0x0B
  const PPS_10S_ERR_L: int := 0x0C
  const PPS_10S_ERR_H: int := 0x0D
  const PPS_100S_ERR_L: int := 0x0E
  const PPS_100S_ERR_H: int := 0x0F
  const DAC_TUNED_VAL: int := 0x10
  const STATUS: int := 0x11

  const STATUS_STATE_OFFSET: nat := 0
  const STATUS_STATE_SIZE: nat := 4
  const STATUS_ACCURACY_OFFSET: nat := 4
  const STATUS_ACCURACY_SIZE: nat := 4
  const STATUS_TPULSE_OFFSET: nat := 8
  const STATUS_TPULSE_SIZE: nat := 1

  const CONTROL_EN_OFFSET: nat := 0
  const CONTROL_EN_SIZE: nat := 1
  const CONTROL_CLK_SEL_OFFSET: nat := 1
  const CONTROL_CLK_SEL_SIZE: nat := 1

  /** The registers in the order a register dump reads them. */
  const DumpOrder: seq<int> := [
    CONTROL,
    PPS_1S_TARGET_L, PPS_1S_TARGET_H, PPS_1S_ERR_TOL,
    PPS_10S_TARGET_L, PPS_10S_TARGET_H, PPS_10S_ERR_TOL,
    PPS_100S_TARGET_L, PPS_100S_TARGET_H, PPS_100S_ERR_TOL,
    PPS_1S_ERR_L, PPS_1S_ERR_H,
    PPS_10S_ERR_L, PPS_10S_ERR_H,
    PPS_100S_ERR_L, PPS_100S_ERR_H,
    DAC_TUNED_VAL,
    STATUS
  ]

  /** The dump visits every address 0x00..0x11 once, in ascending order. */
  lemma DumpOrderAscending()
    ensures |DumpOrder| == 18
    ensures forall i :: 0 <= i < |DumpOrder| ==> DumpOrder[i] == i
  {
  }

  /** The name a register dump shows next to an address. */
  function Name(addr: int): (name: string)
    ensures name == "UNKNOWN" <==> !(0 <= addr <= 0x11)
  {
    match addr
    case 0x00 => "REG_CONTROL"
    case 0x01 => "REG_PPS_1S_TARGET_L"
    case 0x02 => "REG_PPS_1S_TARGET_H"
    case 0x03 => "REG_PPS_1S_ERR_TOL"
    case 0x04 => "REG_PPS_10S_TARGET_L"
    case 0x05 => "REG_PPS_10S_TARGET_H"
    case 0x06 => "REG_PPS_10S_ERR_TOL"
    case 0x07 => "REG_PPS_100S_TARGET_L"
    case 0x08 => "REG_PPS_100S_TARGET_H"
    case 0x09 => "REG_PPS_100S_ERR_TOL"
    case 0x0A => "REG_PPS_1S_ERR_L"
    case 0x0B => "REG_PPS_1S_ERR_H"
    case 0x0C => "REG_PPS_10S_ERR_L"
    case 0x0D => "REG_PPS_10S_ERR_H"
    case 0x0E => "REG_PPS_100S_ERR_L"
    case 0x0F => "REG_PPS_100S_ERR_H"
    case 0x10 => "REG_DAC_TUNED_VAL"
    case 0x11 => "REG_STATUS"
    case _ => "UNKNOWN"
  }
}
