/**
 * The bit-packed layout of a pipe-item update: a 16-bit id, a byte with the
 * input ordinal in bits 0-2 and the output ordinal in bits 3-5, a flags byte
 * (bit 0 reached-centre, bit 1 stuck, bit 2 stack follows), a progress byte,
 * and the stack only when bit 2 is set.
 */
module ItemCodec {
  import opened Wrappers
  import opened Bits
  import opened Directions
  import opened ItemUtils
  import opened Buffers

  const ReachedCenterBit: bv8 := 0x01
  const StuckBit: bv8 := 0x02
  const SyncStackBit: bv8 := 0x04

  /** `i | (o << 3)` for two 3-bit fields. */
  function PackFields(i: nat, o: nat): (b: uint8)
    requires i < 8 && o < 8
    ensures b < 0x40
  {
    ((i as bv8) | ((o as bv8) << 3)) as int
  }

  /** `dirs & 7`. */
  function LowField(dirs: uint8): (k: nat)
    ensures k < 8
  {
    ((dirs as bv8) & 7) as int
  }

  /** `(dirs >> 3) & 7`. */
  function HighField(dirs: uint8): (k: nat)
    ensures k < 8
  {
    (((dirs as bv8) >> 3) & 7) as int
  }

  /** `ordinal(input) | (ordinal(output) << 3)`. */
  function PackDirections(input: Direction, output: Direction): (b: uint8)
    ensures b < 0x40
  {
    PackFields(Ordinal(input), Ordinal(output))
  }

  /** `get(dirs & 7)`. */
  function InputOf(dirs: uint8): Direction
  {
    FromOrdinal(LowField(dirs))
  }

  /** `get((dirs >> 3) & 7)`. */
  function OutputOf(dirs: uint8): Direction
  {
    FromOrdinal(HighField(dirs))
  }

  /** `(reachedCenter ? 0x01 : 0) | (stuck ? 0x02 : 0) | (syncStack ? 0x04 : 0)`. */
  function PackFlags(reachedCenter: bool, stuck: bool, syncStack: bool): (b: uint8)
    ensures b < 8
  {
    ((if reachedCenter then ReachedCenterBit else 0)
     | (if stuck then StuckBit else 0)
     | (if syncStack then SyncStackBit else 0)) as int
  }

  /** `(flags & mask) != 0`. */
  predicate FlagSet(flags: uint8, mask: bv8)
  {
    (flags as bv8) & mask != 0
  }

  /** The fields `readItemData` fills in from one update. */
  datatype ItemFields = ItemFields(id: int16, dirs: uint8, flags: uint8, progress: uint8, stack: Option<StackData>)

  /** What `writeItemData` appends for an item with these fields. */
  function EncodeItemData(id: int, input: Direction, output: Direction, reachedCenter: bool, stuck: bool,
                          syncStack: bool, progress: int, stack: StackData): (ts: seq<Token>)
    ensures |ts| == if syncStack then 6 else 5
    ensures forall k | 0 <= k < 5 :: ts[k].Byte?
    ensures syncStack ==> ts[5] == Stack(stack)
  {
    [Byte(ShortHigh(id)), Byte(ShortLow(id)),
     Byte(PackDirections(input, output)),
     Byte(PackFlags(reachedCenter, stuck, syncStack)),
     Byte(LowByte(progress))]
    + (if syncStack then [Stack(stack)] else [])
  }

  /** The four fixed fields at the front of `ts`; `None` when fewer than five bytes are there. */
  function DecodeHeader(ts: seq<Token>): (r: Option<ItemFields>)
    ensures r.Some? <==> |ts| >= 5 && forall k | 0 <= k < 5 :: ts[k].Byte?
    ensures r.Some? ==> r.value.stack.None?
  {
    if |ts| < 5 || !(ts[0].Byte? && ts[1].Byte? && ts[2].Byte? && ts[3].Byte? && ts[4].Byte?) then None
    else Some(ItemFields(ReadShortValue(ts[0].b, ts[1].b), ts[2].b, ts[3].b, ts[4].b, None))
  }

  /**
   * What `readItemData` reads from the front of `ts`, with the number of
   * tokens consumed; `None` for a truncated or malformed update.
   */
  function DecodeItemData(ts: seq<Token>): (r: Option<(ItemFields, nat)>)
    ensures r.Some? ==> r.value.1 <= |ts|
    ensures r.Some? ==> (r.value.0.stack.Some? <==> FlagSet(r.value.0.flags, SyncStackBit))
    ensures r.Some? ==> r.value.1 == if r.value.0.stack.Some? then 6 else 5
  {
    match DecodeHeader(ts)
    case None => None
    case Some(fields) =>
      if !FlagSet(fields.flags, SyncStackBit) then Some((fields, 5))
      else if |ts| >= 6 && ts[5].Stack? then Some((fields.(stack := Some(ts[5].stack)), 6))
      else None
  }

  /** Three-bit fields at bits 0-2 and 3-5 of a byte do not disturb each other. */
  lemma PackedFieldsSeparate(a: bv8, b: bv8)
    requires a < 8 && b < 8
    ensures (a | (b << 3)) & 7 == a
    ensures ((a | (b << 3)) >> 3) & 7 == b
  {
  }

  /** A byte survives the trip through `int`. */
  lemma ByteOfInt(x: bv8)
    ensures (x as int) as bv8 == x
  {
  }

  /** A small `int` survives the trip through a byte. */
  lemma ByteOfSmall(k: int)
    requires 0 <= k < 8
    ensures (k as bv8) as int == k
  {
  }

  /** Both 3-bit fields come back out of the packed byte. */
  lemma FieldsRoundTrip(i: nat, o: nat)
    requires i < 8 && o < 8
    ensures LowField(PackFields(i, o)) == i
    ensures HighField(PackFields(i, o)) == o
  {
    var a, b := i as bv8, o as bv8;
    ByteOfSmall(i);
    ByteOfSmall(o);
    PackedFieldsSeparate(a, b);
    ByteOfInt(a | (b << 3));
  }

  /** The direction byte gives back both directions. */
  lemma DirectionsRoundTrip(input: Direction, output: Direction)
    ensures InputOf(PackDirections(input, output)) == input
    ensures OutputOf(PackDirections(input, output)) == output
  {
    FieldsRoundTrip(Ordinal(input), Ordinal(output));
    FromOrdinalOrdinal(input);
    FromOrdinalOrdinal(output);
  }

  /** The flags byte gives back all three booleans. */
  lemma FlagsRoundTrip(reachedCenter: bool, stuck: bool, syncStack: bool)
    ensures FlagSet(PackFlags(reachedCenter, stuck, syncStack), ReachedCenterBit) == reachedCenter
    ensures FlagSet(PackFlags(reachedCenter, stuck, syncStack), StuckBit) == stuck
    ensures FlagSet(PackFlags(reachedCenter, stuck, syncStack), SyncStackBit) == syncStack
  {
  }

  /** Bits 3-7 of the flags byte are ignored. */
  lemma FlagsIgnoreHighBits(f: uint8, g: uint8)
    requires (f as bv8) & 7 == (g as bv8) & 7
    ensures FlagSet(f, ReachedCenterBit) == FlagSet(g, ReachedCenterBit)
    ensures FlagSet(f, StuckBit) == FlagSet(g, StuckBit)
    ensures FlagSet(f, SyncStackBit) == FlagSet(g, SyncStackBit)
  {
  }

  /**
   * Decoding what the encoder wrote, whatever follows it, consumes exactly
   * the encoded tokens and gives back the id as a `short`, both directions,
   * both flags, the progress as a byte, and the stack exactly when it was sent.
   */
  lemma EncodeDecode(id: int, input: Direction, output: Direction, reachedCenter: bool, stuck: bool,
                     syncStack: bool, progress: int, stack: StackData, rest: seq<Token>)
    ensures var ts := EncodeItemData(id, input, output, reachedCenter, stuck, syncStack, progress, stack);
      var r := DecodeItemData(ts + rest);
      && r.Some?
      && r.value.1 == |ts|
      && r.value.0.id == ToShort(id)
      && InputOf(r.value.0.dirs) == input
      && OutputOf(r.value.0.dirs) == output
      && FlagSet(r.value.0.flags, ReachedCenterBit) == reachedCenter
      && FlagSet(r.value.0.flags, StuckBit) == stuck
      && r.value.0.progress == LowByte(progress)
      && r.value.0.stack == (if syncStack then Some(stack) else None)
  {
    var ts := EncodeItemData(id, input, output, reachedCenter, stuck, syncStack, progress, stack);
    var all := ts + rest;
    assert all[..|ts|] == ts;
    ShortRoundTrip(id);
    DirectionsRoundTrip(input, output);
    FlagsRoundTrip(reachedCenter, stuck, syncStack);
  }

  /** Within the ranges the wire can carry, the round trip is exact. */
  lemma EncodeDecodeExact(id: int16, input: Direction, output: Direction, reachedCenter: bool, stuck: bool,
                          syncStack: bool, progress: uint8, stack: StackData)
    ensures var r := DecodeItemData(EncodeItemData(id, input, output, reachedCenter, stuck, syncStack, progress, stack));
      && r.Some?
      && r.value.0.id == id
      && r.value.0.progress == progress
      && InputOf(r.value.0.dirs) == input
      && OutputOf(r.value.0.dirs) == output
  {
    var ts := EncodeItemData(id, input, output, reachedCenter, stuck, syncStack, progress, stack);
    EncodeDecode(id, input, output, reachedCenter, stuck, syncStack, progress, stack, []);
    assert ts + [] == ts;
    ToShortOfShort(id);
  }

  /**
   * The decoder looks at nothing past what it consumes: whether a stack is
   * read is decided by the flag bit, not by what else the buffer holds.
   */
  lemma DecodeReadsOnlyConsumed(ts: seq<Token>, rest: seq<Token>)
    requires DecodeItemData(ts).Some?
    ensures var n := DecodeItemData(ts).value.1;
      DecodeItemData(ts[..n] + rest) == DecodeItemData(ts)
  {
    var n := DecodeItemData(ts).value.1;
    var all := ts[..n] + rest;
    assert forall k | 0 <= k < n :: all[k] == ts[k];
  }
}
