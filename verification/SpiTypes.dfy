/** The packet format shared by the two SPI processors (main/rahman/spi/spi_c.h). */
module SpiTypes {

  const QUEUE_CAPACITY: nat := 10
  const BUFFER_POOL_SIZE: nat := QUEUE_CAPACITY + 2

  /** The `type` byte: 0, 1 and 2. */
  datatype Kind = KeepAlive | Packet | Flush

  /** The 64 data bytes: either cleared, or the text of the n-th line of the source (counted from 1). */
  datatype Data = Zeros | Line(n: nat)

  /** What the master sends. Ids are unbounded: no wrap of the 32-bit counter within one epoch. */
  datatype Payload = Payload(id: nat, kind: Kind, data: Data)

  /** What the slave sends back: sampled before the packet it answers. */
  datatype Reply = Reply(free: nat, ack: nat, done: nat)
}
