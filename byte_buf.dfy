/**
 * The network buffer the codec reads and writes: a sequence of tokens and a
 * read cursor. A token is one byte, or one whole item stack as written by
 * the host's stack encoding (`ByteBufUtils`), which is not part of this
 * model and is kept opaque: what is written is what is read back.
 */
module Buffers {
  import opened Wrappers
  import opened Bits
  import opened ItemUtils

  datatype Token = Byte(b: uint8) | Stack(stack: StackData)

  class ByteBuf {
    var data: seq<Token>
    var readerIndex: nat

    ghost predicate Valid()
      reads this
    {
      readerIndex <= |data|
    }

    /** The tokens not yet read. */
    ghost function Unread(): seq<Token>
      reads this
      requires Valid()
    {
      data[readerIndex..]
    }

    constructor (contents: seq<Token>)
      ensures Valid() && data == contents && readerIndex == 0
    {
      data := contents;
      readerIndex := 0;
    }

    /** `writeByte(v)`: appends the low 8 bits of `v`. */
    method WriteByte(v: int)
      modifies this`data
      ensures data == old(data) + [Byte(LowByte(v))]
    {
      data := data + [Byte(LowByte(v))];
    }

    /** `writeShort(v)`: appends the low 16 bits of `v`, high byte first. */
    method WriteShort(v: int)
      modifies this`data
      ensures data == old(data) + [Byte(ShortHigh(v)), Byte(ShortLow(v))]
    {
      data := data + [Byte(ShortHigh(v)), Byte(ShortLow(v))];
    }

    /** `ByteBufUtils.writeItemStack`: appends the stack's contents. */
    method WriteItemStack(s: StackData)
      modifies this`data
      ensures data == old(data) + [Stack(s)]
    {
      data := data + [Stack(s)];
    }

    /** `readUnsignedByte()`; `None` where Netty would throw for want of a byte. */
    method ReadUnsignedByte() returns (r: Option<uint8>)
      requires Valid()
      modifies this`readerIndex
      ensures Valid()
      ensures var i := old(readerIndex);
        if i < |data| && data[i].Byte? then r == Some(data[i].b) && readerIndex == i + 1
        else r.None? && readerIndex == i
    {
      if readerIndex < |data| && data[readerIndex].Byte? {
        r := Some(data[readerIndex].b);
        readerIndex := readerIndex + 1;
      } else {
        r := None;
      }
    }

    /** `readShort()`: two bytes, high first, read as a signed 16-bit value. */
    method ReadShort() returns (r: Option<int16>)
      requires Valid()
      modifies this`readerIndex
      ensures Valid()
      ensures var i := old(readerIndex);
        if i + 1 < |data| && data[i].Byte? && data[i + 1].Byte? then
          r == Some(ReadShortValue(data[i].b, data[i + 1].b)) && readerIndex == i + 2
        else r.None? && readerIndex == i
    {
      if readerIndex + 1 < |data| && data[readerIndex].Byte? && data[readerIndex + 1].Byte? {
        r := Some(ReadShortValue(data[readerIndex].b, data[readerIndex + 1].b));
        readerIndex := readerIndex + 2;
      } else {
        r := None;
      }
    }

    /** `ByteBufUtils.readItemStack`: the next stack written to the buffer. */
    method ReadItemStack() returns (r: Option<StackData>)
      requires Valid()
      modifies this`readerIndex
      ensures Valid()
      ensures var i := old(readerIndex);
        if i < |data| && data[i].Stack? then r == Some(data[i].stack) && readerIndex == i + 1
        else r.None? && readerIndex == i
    {
      if readerIndex < |data| && data[readerIndex].Stack? {
        r := Some(data[readerIndex].stack);
        readerIndex := readerIndex + 1;
      } else {
        r := None;
      }
    }
  }
}
