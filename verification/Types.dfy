/** Integer widths and the records that several components of the gateway share. */
module Types {

  type uint8 = x: int | 0 <= x < 0x100
  type uint16 = x: int | 0 <= x < 0x1_0000
  type uint32 = x: int | 0 <= x < 0x1_0000_0000

  /** A Bluetooth device address, most significant byte first. */
  type Addr = a: seq<uint8> | |a| == 6 witness [0, 0, 0, 0, 0, 0]

  const ZERO_ADDR: Addr := [0, 0, 0, 0, 0, 0]

  /** One reading, as the producers queue it and the hub client sends it. */
  datatype Record = Record(mac: Addr, temperature: int, vdd: uint8, status: uint8, mv1: uint32, mv2: uint32)

  datatype Option<+T> = None | Some(value: T)
}
