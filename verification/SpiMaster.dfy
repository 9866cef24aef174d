/** The transmit loop of main/rahman/spi/spi_m.c, one iteration split at the transfer itself. */
module SpiMaster {
  import opened SpiTypes

  /** `cursor` counts the calls of `nextLine`; `line` copies line number `cursor` again. */
  datatype Master = Master(expected: nat, slots: nat, fetch: bool, tx: Payload, cursor: nat)

  const INITIAL: Master := Master(1, 0, true, Payload(0, KeepAlive, Zeros), 0)

  predicate WantsKeepAlive(m: Master) {
    m.slots == 0 && m.expected > 1
  }

  /** Fills `tx` for the next transfer. */
  function Compose(m: Master, flush: bool): Master {
    if flush then
      m.(tx := Payload(0, Flush, Zeros))
    else
      var n := if m.fetch then m.(cursor := m.cursor + 1, tx := Payload(m.expected, Packet, Line(m.cursor + 1)))
               else m.(tx := m.tx.(data := Line(m.cursor)));
      if WantsKeepAlive(n) then n.(tx := n.tx.(kind := KeepAlive, data := Zeros)) else n
  }

  /** Digests the outcome of the transfer; `reply` is read only when `ok`. */
  function Finish(m: Master, flush: bool, ok: bool, reply: Reply): Master {
    if flush then
      if ok then m.(expected := 1, fetch := true) else m
    else if !ok then
      m.(fetch := false)
    else if m.tx.kind.KeepAlive? then
      m.(slots := reply.free)
    else if reply.ack == m.expected then
      m.(slots := reply.free, expected := m.expected + 1, fetch := true)
    else
      m.(slots := reply.free, fetch := false)
  }

  /** The locals of `spi_master_task`. */
  class SpiMasterTask {
    var expectedAck: nat
    var slaveFreeSlots: nat
    var fetchNewLine: bool
    var txMsg: Payload
    var linesRead: nat

    function State(): Master
      reads this
    {
      Master(expectedAck, slaveFreeSlots, fetchNewLine, txMsg, linesRead)
    }

    constructor ()
      ensures State() == INITIAL
    {
      expectedAck, slaveFreeSlots, fetchNewLine := 1, 0, true;
      txMsg, linesRead := Payload(0, KeepAlive, Zeros), 0;
    }

    method NextLine() returns (data: Data)
      modifies this`linesRead
      ensures linesRead == old(linesRead) + 1 && data == Line(linesRead)
    {
      linesRead := linesRead + 1;
      data := Line(linesRead);
    }

    /** The loop body up to the call of the transmit function. */
    method PrepareTransfer(flushRequested: bool)
      modifies this
      ensures State() == Compose(old(State()), flushRequested)
    {
      if flushRequested {
        txMsg := Payload(0, Flush, Zeros);
        return;
      }
      if fetchNewLine {
        var data := NextLine();
        txMsg := Payload(expectedAck, Packet, data);
      } else {
        txMsg := txMsg.(data := Line(linesRead));
      }
      if slaveFreeSlots == 0 && expectedAck > 1 {
        txMsg := txMsg.(kind := KeepAlive, data := Zeros);
      }
    }

    /** The loop body after the transmit function returned. */
    method FinishTransfer(flushRequested: bool, ok: bool, rxMsg: Reply)
      modifies this
      ensures State() == Finish(old(State()), flushRequested, ok, rxMsg)
    {
      if flushRequested {
        if ok {
          expectedAck, fetchNewLine := 1, true;
        }
        return;
      }
      if ok {
        slaveFreeSlots := rxMsg.free;
        if txMsg.kind.KeepAlive? {
          return;
        }
        if rxMsg.ack == expectedAck {
          expectedAck, fetchNewLine := expectedAck + 1, true;
        } else {
          fetchNewLine := false;
        }
      } else {
        fetchNewLine := false;
      }
    }
  }
}
