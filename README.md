# Pipe-item updates and item-stack predicates

A model of two pieces of the Charset mod.

**The pipe-item update packet** (`PacketItemUpdate`). The server sends one
packet per moving pipe item. The packet holds a 16-bit id, a byte with the
input and output direction ordinals, a flags byte (reached centre, stuck,
stack follows), a progress byte and, only when the flag says so, the item
stack. The client reads the packet and reconciles it with its own replicas
in `apply`:

1. look the id up in a process-wide cache of weak references;
2. evict a cached item whose owner is not the target pipe or no longer lists it;
3. fall back to the pipe's own lookup by id;
4. create a new replica when a stack was sent, or drop the update when none was;
5. overwrite the replica's movement state, register it in the cache, and add a new replica to the pipe.

**The item-stack helpers** (`ItemUtils`): `equals` with its three match
flags, `canMerge`, `equalsMeta`, `hashCode` with Java `int` wrap-around,
`firstNonEmpty` and `getTagCompound`.

Modules:

- `Bits`: the Java integer semantics the codec and the hash rely on, namely byte and short truncation, the signed read of a short, and 32-bit wrap-around.
- `Directions`: facings and their ordinals; `None` is the null direction, ordinal 6.
- `ItemUtils`: `ItemStack` as a class (identity matters to `equals`, and `getTagCompound` mutates it), `StackData` as the value the wire carries, and the helpers.
- `Buffers`: the Netty buffer as a sequence of tokens with a read cursor. A token is a byte, or a whole item stack written by the host's stack encoding, which stays opaque.
- `ItemCodec`: the wire layout as a pair of functions `EncodeItemData`/`DecodeItemData`, with the round-trip lemmas.
- `Pipes`: `PipeItem` and `TilePipe`, reduced to the fields and members the update touches.
- `ItemUpdate`: the packet class, the static cache as a shared `ItemIdCache` object, and `apply` with its resolution rules.
- `Scenario`: a three-message exchange for item 7, driven through the contracts above.

Points of the code that the model keeps exactly:

- Progress is written to a replica only when `apply` creates it (`PacketItemUpdate.java:120-122`); a movement update for a known item leaves it alone. `Scenario.MovementUpdate` states this for a tracked replica.
- The id is read back with `readShort`, so it is signed (`PacketItemUpdate.java:59`).
- `blocksSinceSync` is reset only on a replica the update resolved to (`PacketItemUpdate.java:119`).

## Model

| member | source | states |
|---|---|---|
| Bits.ShortRoundTrip | src/main/java/pl/asie/charset/pipes/pipe/PacketItemUpdate.java:59 | reading back the two bytes `writeShort(v)` wrote gives `(short) v` for every int `v` |
| Bits.ToShortOfShort | src/main/java/pl/asie/charset/pipes/pipe/PacketItemUpdate.java:59 | a value in the signed 16-bit range survives the short cast, so ids in that range round-trip exactly |
| Bits.LowByte | src/main/java/pl/asie/charset/pipes/pipe/PacketItemUpdate.java:75 | `writeByte` keeps `v` modulo 256, and keeps `v` itself when it lies in 0..255 |
| Bits.ToShort | src/main/java/pl/asie/charset/pipes/pipe/PacketItemUpdate.java:59 | the short cast keeps the value modulo 2^16 and lands in the signed 16-bit range |
| Bits.Wrap32 | src/main/java/pl/asie/charset/lib/utils/ItemUtils.java:56-59 | Java `int` arithmetic keeps the value modulo 2^32 and lands in the signed 32-bit range |
| Bits.Wrap32MulAdd | src/main/java/pl/asie/charset/lib/utils/ItemUtils.java:56-59 | wrapping an intermediate int result before a multiply-add gives the same 32-bit result as wrapping only at the end |
| Directions.Ordinal | src/main/java/pl/asie/charset/pipes/pipe/PacketItemUpdate.java:73 | every direction's ordinal fits in 0..6, and 6 means the null direction |
| Directions.FromOrdinal | src/main/java/pl/asie/charset/pipes/pipe/PacketItemUpdate.java:116-117 | any 3-bit field decodes, and it decodes to the null direction exactly for 6 and 7 |
| Directions.FromOrdinalOrdinal | src/main/java/pl/asie/charset/pipes/pipe/PacketItemUpdate.java:116-117 | `get` undoes `ordinal` on every direction, null included |
| Directions.OrdinalFromOrdinal | src/main/java/pl/asie/charset/pipes/pipe/PacketItemUpdate.java:73 | `ordinal` undoes `get` on 0..6 |
| Buffers.ByteBuf.WriteByte | src/main/java/pl/asie/charset/pipes/pipe/PacketItemUpdate.java:73-75 | appends exactly one byte, the low 8 bits of the value |
| Buffers.ByteBuf.WriteShort | src/main/java/pl/asie/charset/pipes/pipe/PacketItemUpdate.java:72 | appends the low 16 bits of the value, high byte first |
| Buffers.ByteBuf.WriteItemStack | src/main/java/pl/asie/charset/pipes/pipe/PacketItemUpdate.java:78 | appends the stack as one opaque token |
| Buffers.ByteBuf.ReadShort | src/main/java/pl/asie/charset/pipes/pipe/PacketItemUpdate.java:59 | consumes two bytes and returns them as a signed short; fails without moving the cursor when two bytes are not there |
| Buffers.ByteBuf.ReadUnsignedByte | src/main/java/pl/asie/charset/pipes/pipe/PacketItemUpdate.java:60-62 | consumes one byte and returns it in 0..255; fails without moving the cursor at the end of the buffer |
| Buffers.ByteBuf.ReadItemStack | src/main/java/pl/asie/charset/pipes/pipe/PacketItemUpdate.java:67 | returns the next stack token and moves past it; fails without moving when the next token is not a stack |
| ItemCodec.PackFields | src/main/java/pl/asie/charset/pipes/pipe/PacketItemUpdate.java:73 | two 3-bit fields packed with the first in bits 0-2 and the second in bits 3-5 fit in bits 0-5 |
| ItemCodec.LowField | src/main/java/pl/asie/charset/pipes/pipe/PacketItemUpdate.java:116 | `dirs & 7` is below 8 |
| ItemCodec.HighField | src/main/java/pl/asie/charset/pipes/pipe/PacketItemUpdate.java:117 | `(dirs >> 3) & 7` is below 8 |
| ItemCodec.FieldsRoundTrip | src/main/java/pl/asie/charset/pipes/pipe/PacketItemUpdate.java:116-117 | `& 7` and `(>> 3) & 7` give back both 3-bit fields that were packed |
| ItemCodec.PackDirections | src/main/java/pl/asie/charset/pipes/pipe/PacketItemUpdate.java:73 | the direction byte uses bits 0-5 only |
| ItemCodec.PackFlags | src/main/java/pl/asie/charset/pipes/pipe/PacketItemUpdate.java:74 | the flags byte uses bits 0-2 only |
| ItemCodec.EncodeItemData | src/main/java/pl/asie/charset/pipes/pipe/PacketItemUpdate.java:71-80 | the encoding is five bytes, plus the stack as the sixth token exactly when `syncStack` is set |
| ItemCodec.DecodeHeader | src/main/java/pl/asie/charset/pipes/pipe/PacketItemUpdate.java:59-62 | the fixed part decodes exactly when the first five tokens are bytes, and carries no stack |
| ItemCodec.DecodeItemData | src/main/java/pl/asie/charset/pipes/pipe/PacketItemUpdate.java:54-69 | a successful decode consumes 5 tokens, or 6 when flag bit 2 is set, and yields a stack exactly when that bit is set |
| ItemCodec.DirectionsRoundTrip | src/main/java/pl/asie/charset/pipes/pipe/PacketItemUpdate.java:116-117 | decoding `dirs & 7` and `(dirs >> 3) & 7` gives back both directions that were packed |
| ItemCodec.FlagsRoundTrip | src/main/java/pl/asie/charset/pipes/pipe/PacketItemUpdate.java:74 | bits 0, 1 and 2 of the flags byte give back reachedCenter, stuck and syncStack |
| ItemCodec.FlagsIgnoreHighBits | src/main/java/pl/asie/charset/pipes/pipe/PacketItemUpdate.java:118-124 | flags bytes that agree on bits 0-2 decode to the same three booleans, so bits 3-7 are ignored |
| ItemCodec.EncodeDecode | src/main/java/pl/asie/charset/pipes/pipe/PacketItemUpdate.java:54-80 | decoding what the writer produced, whatever follows it, consumes exactly those tokens and returns `(short) id`, both directions, both flags, progress mod 256, and the stack iff it was sent |
| ItemCodec.EncodeDecodeExact | src/main/java/pl/asie/charset/pipes/pipe/PacketItemUpdate.java:59-62 | for a short id and a progress in 0..255, id, progress and directions round-trip exactly |
| ItemCodec.DecodeReadsOnlyConsumed | src/main/java/pl/asie/charset/pipes/pipe/PacketItemUpdate.java:64-68 | the decoder's result depends only on the tokens it consumes |
| Pipes.PipeItem.constructor | src/main/java/pl/asie/charset/pipes/pipe/PacketItemUpdate.java:109 | a new replica has the given owner and id, no directions, no flags, progress 0 and an empty stack |
| Pipes.PipeItem.SetStuckFlagClient | src/main/java/pl/asie/charset/pipes/pipe/PacketItemUpdate.java:126 | sets the stuck flag to the value sent and changes nothing else |
| Pipes.Without | src/main/java/pl/asie/charset/pipes/pipe/PacketItemUpdate.java:94 | removal keeps exactly the other items and keeps ids unique |
| Pipes.ConsUnique | src/main/java/pl/asie/charset/pipes/pipe/PacketItemUpdate.java:94 | an item in front of a list keeps ids unique iff the list is unique and lacks its id |
| Pipes.AppendUnique | src/main/java/pl/asie/charset/pipes/pipe/PacketItemUpdate.java:135 | appending an item whose id is new keeps ids unique |
| Pipes.TilePipe.GetItemByID | src/main/java/pl/asie/charset/pipes/pipe/PacketItemUpdate.java:104 | returns a listed item with that id, and returns null only when no listed item has it |
| Pipes.TilePipe.RemoveItemClientSide | src/main/java/pl/asie/charset/pipes/pipe/PacketItemUpdate.java:94 | the pipe's items become the old items without the removed one |
| Pipes.TilePipe.AddItemClientSide | src/main/java/pl/asie/charset/pipes/pipe/PacketItemUpdate.java:135 | the item is added once; adding a listed item changes nothing |
| ItemUpdate.Lookup | src/main/java/pl/asie/charset/pipes/pipe/PacketItemUpdate.java:90-91 | a cache hit exactly when the entry exists and its reference is not cleared |
| ItemUpdate.ItemIdCache.constructor | src/main/java/pl/asie/charset/pipes/pipe/PacketItemUpdate.java:36 | the cache starts empty |
| ItemUpdate.PacketItemUpdate.constructor | src/main/java/pl/asie/charset/pipes/pipe/PacketItemUpdate.java:44-46 | a received packet starts with no item, no stack flag and zero fields |
| ItemUpdate.PacketItemUpdate.ForItem | src/main/java/pl/asie/charset/pipes/pipe/PacketItemUpdate.java:48-52 | a sending packet holds its tile, item and `syncStack` |
| ItemUpdate.PacketItemUpdate.WriteItemData | src/main/java/pl/asie/charset/pipes/pipe/PacketItemUpdate.java:71-80 | appends exactly `EncodeItemData` of the item's id, directions, reachedCenter, `isStuck()`, `syncStack`, progress and stack |
| ItemUpdate.PacketItemUpdate.ReadHeader | src/main/java/pl/asie/charset/pipes/pipe/PacketItemUpdate.java:59-62 | the four fixed reads return `DecodeHeader` of the unread tokens and, when they succeed, move the cursor by five |
| ItemUpdate.PacketItemUpdate.ReadItemData | src/main/java/pl/asie/charset/pipes/pipe/PacketItemUpdate.java:54-69 | reads nothing and changes nothing unless the tile is a pipe; otherwise the fields are the decoded ones, `addWhenDone` is cleared, `syncStack` is flag bit 2, the stack is read iff that bit is set, and the cursor moves past the update |
| ItemUpdate.PacketItemUpdate.ResolveFromCache | src/main/java/pl/asie/charset/pipes/pipe/PacketItemUpdate.java:90-97 | a valid cache hit is kept; a stale one is removed from its owner and evicted, and the result is null; otherwise nothing changes |
| ItemUpdate.PacketItemUpdate.Resolve | src/main/java/pl/asie/charset/pipes/pipe/PacketItemUpdate.java:90-114 | follows the resolution rules: cache, then the pipe's lookup, then creation only when a stack was sent, else drop; the target pipe's items do not change; a created replica is fresh, has the id and the pipe as owner, and the pipe had no item with that id |
| ItemUpdate.PacketItemUpdate.Overwrite | src/main/java/pl/asie/charset/pipes/pipe/PacketItemUpdate.java:116-130 | directions, reachedCenter and stuck come from the packet; blocksSinceSync becomes 0; progress changes only when `addWhenDone`; the stack changes only when `syncStack` |
| ItemUpdate.PacketItemUpdate.Register | src/main/java/pl/asie/charset/pipes/pipe/PacketItemUpdate.java:116-136 | after the overwrite, the cache maps the id to the replica, and the pipe gains it only if it was created by this update and is not already listed; unique ids and ownership are kept |
| ItemUpdate.PacketItemUpdate.Apply | src/main/java/pl/asie/charset/pipes/pipe/PacketItemUpdate.java:88-137 | the resolution matches the rules; a stale item is taken off its owner and evicted; a dropped update creates nothing, changes no pipe and adds no cache entry; a resolved replica gets the movement state, the stack only if sent, and the progress only if created; the cache maps the id to it; the pipe gains exactly the new replica; unique ids and ownership are preserved; other items are unchanged |
| Scenario.Transfer | src/main/java/pl/asie/charset/pipes/pipe/PacketItemUpdate.java:54-80 | writing an item and reading the buffer back into a packet for a pipe gives its id, directions, flags, progress and, when sent, its stack |
| Scenario.FullUpdate | src/main/java/pl/asie/charset/pipes/pipe/PacketItemUpdate.java:107-136 | a full update for an unknown id creates one replica with the sent state, lists it in the pipe and caches it |
| Scenario.MovementUpdate | src/main/java/pl/asie/charset/pipes/pipe/PacketItemUpdate.java:116-130 | a movement update for a tracked replica sets its directions and flags but keeps its stack and its progress |
| Scenario.StaleUpdate | src/main/java/pl/asie/charset/pipes/pipe/PacketItemUpdate.java:90-113 | an update whose cached replica its pipe no longer lists evicts the entry and is dropped |
| ItemUtils.ItemStack.GetItem | src/main/java/pl/asie/charset/lib/utils/ItemUtils.java:125 | a stack has an item exactly when it is not empty |
| ItemUtils.Equals | src/main/java/pl/asie/charset/lib/utils/ItemUtils.java:119-145 | the same reference is equal; an empty source matches iff the target is empty; a match of a non-empty source has the same item, and the same count, damage or tag when the corresponding flag asks for it |
| ItemUtils.EqualsByContents | src/main/java/pl/asie/charset/lib/utils/ItemUtils.java:119-145 | `equals` is exactly a relation on stack contents: the reference shortcut never changes the answer |
| ItemUtils.EqualsMonotone | src/main/java/pl/asie/charset/lib/utils/ItemUtils.java:129-143 | a match under stricter flags is a match under looser flags |
| ItemUtils.EqualsSymmetric | src/main/java/pl/asie/charset/lib/utils/ItemUtils.java:119-145 | `equals(a, b)` and `equals(b, a)` agree for every choice of flags |
| ItemUtils.EqualsTransitive | src/main/java/pl/asie/charset/lib/utils/ItemUtils.java:119-145 | `equals` is transitive for every choice of flags |
| ItemUtils.CanMerge | src/main/java/pl/asie/charset/lib/utils/ItemUtils.java:108-110 | `canMerge` holds iff both stacks are empty, or both have the same item, damage and tag, whatever their counts |
| ItemUtils.EqualsMeta | src/main/java/pl/asie/charset/lib/utils/ItemUtils.java:112-117 | an empty source matches iff the target is empty; otherwise the target must be non-empty with the same item, and damage must agree only for items that are not damageable |
| ItemUtils.HashCode | src/main/java/pl/asie/charset/lib/utils/ItemUtils.java:52-60 | 0 for an empty stack, otherwise `7 * (31 * count + itemId) + damage` reduced to a 32-bit int |
| ItemUtils.HashConsistentWithEquals | src/main/java/pl/asie/charset/lib/utils/ItemUtils.java:52-60 | stacks that `equals` matches on size and damage have the same hash |
| ItemUtils.FirstNonEmpty | src/main/java/pl/asie/charset/lib/utils/ItemUtils.java:43-50 | the result is the first non-empty stack in argument order, or the empty stack when every stack is empty |
| ItemUtils.GetTagCompound | src/main/java/pl/asie/charset/lib/utils/ItemUtils.java:86-91 | with `create`, a stack that has no tag compound (an empty stack counts as having none) gets a fresh empty one, a stack that has one keeps it, and the stack's tag is returned; without `create`, the stack is unchanged and its tag, possibly null, is returned |

## Left out

- `spawnItemEntity` and `giveOrSpawnItemEntity` (`ItemUtils.java:147-169`): world, entity and inventory calls, and random floating-point motion.
- `getAttributeValue` (`ItemUtils.java:72-84`): a foreign attribute map with a `double` result.
- `isOreType`, `writeToNBT` and `getBlockState` (`ItemUtils.java:62-70`, `93-106`): thin wrappers over the ore dictionary, NBT serialisation and the block registry, none of which is part of this model.
- `ByteBufUtils.readItemStack`/`writeItemStack`: the host's stack encoding is one opaque buffer token, so its round trip holds by construction. A byte read that meets a stack token counts as a malformed update.
- `readData`, `writeData` and `isAsynchronous` (`PacketItemUpdate.java:82-86`, `139-148`): the tile header and transport live in `PacketTile`, which is not part of this model. The packet's tile is a constructor parameter.
- Weak references: a reclaimed referent is a `Cleared` cache entry. The garbage collector that clears entries is not modelled.
- `DirectionUtils` is not part of this model. `ordinal` and `get` are mutually inverse on 0..6, and `get(7)` is taken to be the null direction.
- `ItemStack` is not part of this model. `isEmpty` is taken as: air, a count of 0 or less, or a damage outside -32768..65535; the reference test against `ItemStack.EMPTY` is left out. `hasTagCompound`, used by ItemUtils.GetTagCompound, is taken as "not empty and the tag is not null". `areItemStackTagsEqual` compares the optional compounds only; Forge capability data is not modelled. Item ids and damageability are fields of a plain `Item` value.
- `TilePipe.getPipeItems()` is a hash set in the source. The model uses a sequence with set-like add. `getItemByID` returns the first match, where the source returns whichever match its iteration meets first.
- The packet's tile may not be a pipe. Then `apply` throws at its cast (`PacketItemUpdate.java:100`); the model ends with `Aborted`, after any stale-entry eviction.
- Threading: the static cache is shared by every packet, and packets are assumed to be applied one at a time.
- ItemUpdate.PacketItemUpdate.ReadItemData: after a truncated or malformed update, only the outcome `Malformed` is stated. The fields the source assigned before its read threw are not.
- ItemUpdate.PacketItemUpdate.Apply: that the evicted item is not the replica the update then uses is proved only when every item the target pipe lists names that pipe as its owner. Without that, the pipe's own lookup could return an item whose owner field names another pipe.
- ItemUtils.FirstNonEmpty: `ItemStack.EMPTY` is passed in as a parameter, and the varargs array is a sequence.
- ItemUtils.GetTagCompound: the compound is a value, so a caller's later writes to the returned compound do not reach the stack, whereas in the source they do.
