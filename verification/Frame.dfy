/** Octets and the typed LAPDm frame: the value carried between two link entities. */
module Frames {

  type Octet = x: int | 0 <= x < 256
  type Octets = seq<Octet>

  /** A sequence number, modulo 8. */
  type Seq8 = x: int | 0 <= x < 8

  function Next8(n: Seq8): Seq8 { (n + 1) % 8 }

  datatype Option<+T> = None | Some(value: T)

  /** Only SAPI 0 and 3 are defined on Um; `Undefined` stands for every other three-bit value. */
  datatype Sapi = Sapi0 | Sapi3 | Undefined

  datatype Address = Address(sapi: Sapi, command: bool, ea: bool)

  /** The two-bit S function code; the fourth code has no name in the protocol. */
  datatype SType = RR | RNR | REJ | Reserved

  datatype UType = UI | SABME | DM | DISC | UA

  datatype Frame =
    | IFrame(address: Address, nr: Seq8, ns: Seq8, pf: bool, more: bool, info: Octets)
    | SFrame(address: Address, nr: Seq8, sType: SType, pf: bool)
    | UFrame(address: Address, uType: UType, pf: bool, more: bool, info: Octets)

  // ----- Frame factories (the make*Frame functions) -----

  function MakeUI(sapi: Sapi, command: bool, info: Octets): Frame {
    UFrame(Address(sapi, command, true), UI, false, false, info)
  }

  function MakeSABME(sapi: Sapi, command: bool, info: Octets): Frame {
    UFrame(Address(sapi, command, true), SABME, true, false, info)
  }

  function MakeUA(sapi: Sapi, pf: bool, info: Octets): Frame {
    UFrame(Address(sapi, false, true), UA, pf, false, info)
  }

  function MakeDM(sapi: Sapi, pf: bool): Frame {
    UFrame(Address(sapi, false, true), DM, pf, false, [])
  }

  function MakeDISC(sapi: Sapi, command: bool): Frame {
    UFrame(Address(sapi, command, true), DISC, true, false, [])
  }

  function MakeI(sapi: Sapi, command: bool, nr: Seq8, ns: Seq8, pf: bool, more: bool, info: Octets): Frame {
    IFrame(Address(sapi, command, true), nr, ns, pf, more, info)
  }

  function MakeS(sapi: Sapi, nr: Seq8, sType: SType, pf: bool): Frame {
    SFrame(Address(sapi, false, true), nr, sType, pf)
  }
}
