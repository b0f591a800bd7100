/**
 * The SMBus handle the driver reads from. Only its block read is used; the
 * sensor's answers are an oracle given when the handle is made, and the
 * handle records every request it receives.
 */
module I2cBus {
  import opened Wrappers
  import opened Registers

  /** One block read: `length` registers from `register` on the device at `address`. */
  datatype Request = Request(address: int, register: int, length: int)

  class Bus {
    /** The answer to the n-th request: the registers read, or `None` when the read fails. */
    const respond: (nat, Request) -> Option<seq<Byte>>
    /** Every request received so far, oldest first. */
    var log: seq<Request>

    constructor (respond: (nat, Request) -> Option<seq<Byte>>)
      ensures this.respond == respond && log == []
    {
      this.respond := respond;
      log := [];
    }

    /** `read_i2c_block_data(address, register, length)`. */
    method ReadBlockData(address: int, register: int, length: int) returns (regs: Option<seq<Byte>>)
      modifies this
      ensures log == old(log) + [Request(address, register, length)]
      ensures regs == respond(|old(log)|, Request(address, register, length))
    {
      regs := respond(|log|, Request(address, register, length));
      log := log + [Request(address, register, length)];
    }
  }
}
