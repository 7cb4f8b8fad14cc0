/**
 * The boundary to the ACPI firmware. Each named procedure the driver
 * evaluates is a `Call` with its integer arguments; the firmware's answer is
 * a `Reply` supplied by the caller of the model (an oracle), and every call
 * that is actually issued is recorded as an `Event` with the status it got.
 */
module Firmware {

  /** `AE_OK`: the status of a successful evaluation. */
  const AE_OK: nat := 0

  datatype Call =
    | RFAN(fan: int)                 // \_TZ.RFAN: read the speed of a fan
    | SFNV(index: int, speed: int)   // \_SB.PCI0.LPCB.EC0.SFNV: write a speed; index 0 = all fans automatic
    | TACH(fan: int)                 // \_SB.PCI0.LPCB.EC0.TACH: read the tachometer of a fan
    | QMOD(mode: int)                // \_SB.ATKD.QMOD: select the quiet mode (2 = factory ceiling 0xFF)
    | ST98(ceiling: int)             // \_SB.PCI0.LPCB.EC0.ST98: set the maximum fan speed

  /** What the firmware answers to one evaluation: a status and an integer result. */
  datatype Reply = Reply(status: nat, value: nat)

  /** One issued evaluation and the status the firmware returned for it. */
  datatype Event = Event(call: Call, status: nat)
}
