/**
 * The interrupt kinds that the PPU and the timer request through
 * `cpu->triggerInterrupt(...)`. The CPU side of the protocol is not part of
 * this model: each component keeps a ghost log of the requests it made.
 */
module Interrupts {
  datatype Interrupt = VBlank | Lcd | Timer
}
