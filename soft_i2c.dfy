/**
 * The two-wire bus the driver is handed. It is not part of the driver: it is modelled as a
 * stub that records every transaction in order and answers reads from a scripted stream of
 * bytes. A read for more bytes than the stream still holds fails, which stands for any
 * transport failure (NACK, timeout) that the driver propagates.
 */
module SoftI2CBus {
  import opened Wrappers
  import opened ByteOrder

  datatype Txn = Write(addr: int, data: seq<Byte>) | Read(addr: int, count: nat)

  class SoftI2C {
    /** Every transaction issued so far, oldest first. */
    var log: seq<Txn>
    /** The bytes the device will answer with, in order. */
    var replies: seq<Byte>

    constructor (replies: seq<Byte>)
      ensures log == [] && this.replies == replies
    {
      log := [];
      this.replies := replies;
    }

    method WriteTo(addr: int, data: seq<Byte>)
      modifies this
      ensures log == old(log) + [Write(addr, data)]
      ensures replies == old(replies)
    {
      log := log + [Write(addr, data)];
    }

    method ReadFrom(addr: int, count: nat) returns (data: Option<seq<Byte>>)
      modifies this
      ensures log == old(log) + [Read(addr, count)]
      ensures count <= |old(replies)| ==> data == Some(old(replies)[..count]) && replies == old(replies)[count..]
      ensures count > |old(replies)| ==> data == None && replies == old(replies)
    {
      log := log + [Read(addr, count)];
      if count <= |replies| {
        data := Some(replies[..count]);
        replies := replies[count..];
      } else {
        data := None;
      }
    }
  }
}
